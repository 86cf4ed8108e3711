/** What the source relies on of Go's strings: UTF-8 lengths and space trimming. */
module Text {
  function Utf8Length(s: string): nat {
    if s == "" then 0
    else
      var c := s[|s| - 1] as int;
      Utf8Length(s[..|s| - 1]) + if c < 0x80 then 1 else if c < 0x800 then 2 else if c < 0x1_0000 then 3 else 4
  }

  /** `unicode.IsSpace` */
  predicate IsSpace(c: char) {
    var n := c as int;
    || 0x09 <= n <= 0x0d || n == 0x20 || n == 0x85 || n == 0xa0 || n == 0x1680 || 0x2000 <= n <= 0x200a
    || n == 0x2028 || n == 0x2029 || n == 0x202f || n == 0x205f || n == 0x3000
  }

  function TrimLeftSpace(s: string): string {
    if s != "" && IsSpace(s[0]) then TrimLeftSpace(s[1..]) else s
  }

  function TrimRightSpace(s: string): string {
    if s != "" && IsSpace(s[|s| - 1]) then TrimRightSpace(s[..|s| - 1]) else s
  }

  /** `strings.TrimSpace` */
  function TrimSpace(s: string): string {
    TrimRightSpace(TrimLeftSpace(s))
  }

  predicate IsTrimmed(s: string) {
    s == "" || (!IsSpace(s[0]) && !IsSpace(s[|s| - 1]))
  }

  /** `r` is what is left of `s` after some leading spaces. */
  ghost predicate EndsAfterSpaces(s: string, r: string) {
    && |r| <= |s| && r == s[|s| - |r|..] && (r == "" || !IsSpace(r[0]))
    && forall k | 0 <= k < |s| - |r| :: IsSpace(s[k])
  }

  /** `r` is what is left of `s` before some trailing spaces. */
  ghost predicate StartsBeforeSpaces(s: string, r: string) {
    && |r| <= |s| && r == s[..|r|] && (r == "" || !IsSpace(r[|r| - 1]))
    && forall k | |r| <= k < |s| :: IsSpace(s[k])
  }

  lemma {:induction false} TrimLeftIs(s: string)
    ensures EndsAfterSpaces(s, TrimLeftSpace(s))
  {
    hide IsSpace;
    if s != "" && IsSpace(s[0]) {
      TrimLeftIs(s[1..]);
      SkipOne(s, TrimLeftSpace(s[1..]));
    }
  }

  lemma SkipOne(s: string, r: string)
    requires s != "" && IsSpace(s[0]) && EndsAfterSpaces(s[1..], r)
    ensures EndsAfterSpaces(s, r)
  {
    hide IsSpace;
    forall k | 0 <= k < |s| - |r| ensures IsSpace(s[k]) {
      if k > 0 {
        assert s[k] == s[1..][k - 1];
      }
    }
  }

  lemma {:induction false} TrimRightIs(s: string)
    ensures StartsBeforeSpaces(s, TrimRightSpace(s))
  {
    hide IsSpace;
    if s != "" && IsSpace(s[|s| - 1]) {
      TrimRightIs(s[..|s| - 1]);
    }
  }

  /** Trimming yields a slice without space at either end, and drops only spaces. */
  lemma TrimSpaceIs(s: string)
    ensures IsTrimmed(TrimSpace(s))
    ensures EndsAfterSpaces(s, TrimLeftSpace(s)) && StartsBeforeSpaces(TrimLeftSpace(s), TrimSpace(s))
  {
    hide IsSpace, TrimLeftSpace, TrimRightSpace;
    TrimLeftIs(s);
    TrimRightIs(TrimLeftSpace(s));
  }

  lemma TrimSpaceFixed(s: string)
    requires IsTrimmed(s)
    ensures TrimSpace(s) == s
  {
  }

  lemma SpacesOnly(s: string)
    ensures TrimSpace(s) == "" <==> forall i | 0 <= i < |s| :: IsSpace(s[i])
  {
    TrimSpaceIs(s);
    hide IsSpace, TrimSpace, TrimLeftSpace;
    var left := TrimLeftSpace(s);
    if TrimSpace(s) == "" {
      assert left == "";
    } else {
      assert !IsSpace(left[0]) && s[|s| - |left|] == left[0];
    }
  }

  /** There is only space before `a` and from `b` on, and none at either end between. */
  predicate IsMiddle(s: string, a: nat, b: nat) {
    && a < b <= |s| && !IsSpace(s[a]) && !IsSpace(s[b - 1])
    && (forall k | 0 <= k < a :: IsSpace(s[k])) && (forall k | b <= k < |s| :: IsSpace(s[k]))
  }

  lemma TrimmedMiddle(s: string) returns (a: nat, b: nat)
    requires TrimSpace(s) != ""
    ensures a < b <= |s| && IsMiddle(s, a, b) && TrimSpace(s) == s[a..b]
  {
    TrimSpaceIs(s);
    hide IsSpace, TrimSpace, TrimLeftSpace;
    var left := TrimLeftSpace(s);
    a, b := |s| - |left|, |s| - |left| + |TrimSpace(s)|;
    assert forall k | a <= k < |s| :: s[k] == left[k - a];
    assert forall k | |TrimSpace(s)| <= k < |left| :: left[k] == s[a + k];
    forall k | b <= k < |s| ensures IsSpace(s[k]) {
      assert s[k] == left[k - a];
    }
  }
}
