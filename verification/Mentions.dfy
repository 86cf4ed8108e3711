/** Scanning a workflow request for agent mentions (the regular expression of coordinator/compiler.go). */
module Mentions {
  const MAX_NAME := 32

  /** `[a-z]` under `(?i)`, which also folds U+017F and U+212A onto s and k. */
  predicate IsLetter(c: char) {
    'a' <= c <= 'z' || 'A' <= c <= 'Z' || c as int == 0x17f || c as int == 0x212a
  }

  /** `[a-z0-9_-]` under `(?i)` */
  predicate IsNameChar(c: char) {
    IsLetter(c) || '0' <= c <= '9' || c == '_' || c == '-'
  }

  /** A mention starts at `i`. */
  predicate IsMention(s: string, i: nat) {
    i + 1 < |s| && s[i] == '@' && IsLetter(s[i + 1])
  }

  /** `start` is the at sign, the name is between it and `end`. */
  datatype Match = Match(start: nat, end: nat)

  /** The greedy end of a name, at most `room` characters on. */
  function NameEnd(s: string, i: nat, room: nat): (end: nat)
    requires i <= |s|
    ensures i <= end <= |s| && end <= i + room
    ensures forall k | i <= k < end :: IsNameChar(s[k])
    ensures end < |s| && end < i + room ==> !IsNameChar(s[end])
    decreases room
  {
    if room == 0 || i == |s| || !IsNameChar(s[i]) then i else NameEnd(s, i + 1, room - 1)
  }

  function MatchAt(s: string, i: nat): Match
    requires IsMention(s, i)
  {
    Match(i, NameEnd(s, i + 1, MAX_NAME))
  }

  /** Leftmost matches from `i` on, none overlapping. */
  function MatchesFrom(s: string, i: nat): seq<Match>
    requires i <= |s|
    decreases |s| - i
  {
    if i == |s| then []
    else if IsMention(s, i) then [MatchAt(s, i)] + MatchesFrom(s, MatchAt(s, i).end)
    else MatchesFrom(s, i + 1)
  }

  function Matches(s: string): seq<Match> {
    MatchesFrom(s, 0)
  }

  ghost predicate InOrder(s: string, i: nat, ms: seq<Match>) {
    && (forall k | 0 <= k < |ms| :: i <= ms[k].start && IsMention(s, ms[k].start) && ms[k] == MatchAt(s, ms[k].start))
    && (forall k, l | 0 <= k < l < |ms| :: ms[k].end <= ms[l].start)
  }

  ghost predicate IsStart(ms: seq<Match>, i: nat) {
    exists k :: 0 <= k < |ms| && ms[k].start == i
  }

  /** Every mention from `i` on is matched. */
  ghost predicate Covers(s: string, i: nat, ms: seq<Match>) {
    forall j: nat | i <= j && IsMention(s, j) :: IsStart(ms, j)
  }

  lemma PrependMatch(s: string, i: nat, rest: seq<Match>)
    requires IsMention(s, i) && InOrder(s, MatchAt(s, i).end, rest) && Covers(s, MatchAt(s, i).end, rest)
    ensures InOrder(s, i, [MatchAt(s, i)] + rest) && Covers(s, i, [MatchAt(s, i)] + rest)
  {
    hide NameEnd;
    var m := MatchAt(s, i);
    var ms := [m] + rest;
    assert forall k | 0 < k < |ms| :: ms[k] == rest[k - 1];
    forall j: nat | i <= j && IsMention(s, j) ensures IsStart(ms, j) {
      if j == i {
        assert ms[0].start == i;
      } else {
        assert j >= m.end;
        assert IsStart(rest, j);
        var k :| 0 <= k < |rest| && rest[k].start == j;
        assert ms[k + 1].start == j;
      }
    }
  }

  /** The matches are in order and cover every position where a mention starts: no name hides another. */
  lemma {:induction false} MatchesAreAllMentions(s: string, i: nat)
    requires i <= |s|
    ensures InOrder(s, i, MatchesFrom(s, i)) && Covers(s, i, MatchesFrom(s, i))
    decreases |s| - i
  {
    if i == |s| {
      assert InOrder(s, i, []) && Covers(s, i, []);
    } else if IsMention(s, i) {
      var end := MatchAt(s, i).end;
      assert MatchesFrom(s, i) == [MatchAt(s, i)] + MatchesFrom(s, end);
      hide *;
      MatchesAreAllMentions(s, end);
      PrependMatch(s, i, MatchesFrom(s, end));
    } else {
      MatchesAreAllMentions(s, i + 1);
      SkipPlain(s, i, MatchesFrom(s, i + 1));
    }
  }

  lemma SkipPlain(s: string, i: nat, rest: seq<Match>)
    requires !IsMention(s, i) && InOrder(s, i + 1, rest) && Covers(s, i + 1, rest)
    ensures InOrder(s, i, rest) && Covers(s, i, rest)
  {
  }

  lemma {:induction false} NothingBetween(s: string, i: nat, j: nat)
    requires i <= j <= |s| && forall k: nat | i <= k < j :: !IsMention(s, k)
    ensures MatchesFrom(s, i) == MatchesFrom(s, j)
    decreases j - i
  {
    if i < j {
      NothingBetween(s, i + 1, j);
    }
  }
}
