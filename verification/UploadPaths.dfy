/** Names for saved uploads (`validUploadName` and `reserveUploadPath` in cloud/connector.go). */
module UploadPaths {
  import opened Bytes
  import opened Text
  import opened Wrappers

  /** The upload directory: file name to contents. */
  type Directory = map<string, Bytes>

  const MAX_SUFFIX: nat := 10_000

  // ---- decimal numbers -------------------------------------------------------------------------

  function DigitChar(d: nat): char
    requires d < 10
  {
    ('0' as int + d) as char
  }

  function Itoa(n: nat): string {
    if n < 10 then [DigitChar(n)] else Itoa(n / 10) + [DigitChar(n % 10)]
  }

  function Atoi(s: string): int {
    if s == "" then 0 else Atoi(s[..|s| - 1]) * 10 + (s[|s| - 1] as int - '0' as int)
  }

  lemma {:induction false} AtoiItoa(n: nat)
    ensures Atoi(Itoa(n)) == n
  {
    if n >= 10 {
      AtoiItoa(n / 10);
      assert Itoa(n)[..|Itoa(n)| - 1] == Itoa(n / 10);
    } else {
      assert Itoa(n)[..0] == "";
    }
  }

  // ---- names -----------------------------------------------------------------------------------

  /** Where `filepath.Ext` starts: the last dot, or the end. */
  function ExtensionStart(name: string): (at: nat)
    ensures at <= |name|
    ensures forall k | at < k < |name| :: name[k] != '.'
    ensures at < |name| ==> name[at] == '.'
    ensures at == |name| ==> '.' !in name
  {
    if '.' !in name then |name| else LastDot(name, |name| - 1)
  }

  function LastDot(name: string, from: nat): (at: nat)
    requires from < |name| && (exists k :: 0 <= k <= from && name[k] == '.')
    requires forall k | from < k < |name| :: name[k] != '.'
    ensures at <= from && name[at] == '.' && forall k | at < k < |name| :: name[k] != '.'
  {
    if name[from] == '.' then from else LastDot(name, from - 1)
  }

  /** The name tried under `suffix`. */
  function Candidate(name: string, suffix: nat): string {
    if suffix == 0 then name
    else
      var at := ExtensionStart(name);
      name[..at] + " (" + Itoa(suffix) + ")" + name[at..]
  }

  lemma Sandwich(a: string, x: string, y: string, b: string)
    requires a + x + b == a + y + b
    ensures x == y
  {
    assert x == (a + x + b)[|a|..|a| + |x|];
    assert y == (a + y + b)[|a|..|a| + |y|];
  }

  /** No two suffixes give the same name. */
  lemma CandidatesDistinct(name: string, i: nat, j: nat)
    requires Candidate(name, i) == Candidate(name, j)
    ensures i == j
  {
    var at := ExtensionStart(name);
    var head, tail := name[..at] + " (", ")" + name[at..];
    assert i > 0 ==> Candidate(name, i) == head + Itoa(i) + tail;
    assert j > 0 ==> Candidate(name, j) == head + Itoa(j) + tail;
    if i > 0 && j > 0 {
      Sandwich(head, Itoa(i), Itoa(j), tail);
      AtoiItoa(i);
      AtoiItoa(j);
    } else {
      assert |head + tail| == |name| + 3;
    }
  }

  /** The first suffix from `from` on whose name is free. */
  function FirstFree(dir: Directory, name: string, from: nat): Option<nat>
    decreases MAX_SUFFIX - from
  {
    if from >= MAX_SUFFIX then None
    else if Candidate(name, from) !in dir then Some(from)
    else FirstFree(dir, name, from + 1)
  }

  ghost predicate LeastFree(dir: Directory, name: string, from: nat, k: nat) {
    from <= k < MAX_SUFFIX && Candidate(name, k) !in dir && forall j: nat | from <= j < k :: Candidate(name, j) in dir
  }

  lemma {:induction false} FirstFreeIsLeast(dir: Directory, name: string, from: nat)
    ensures forall k: nat :: FirstFree(dir, name, from) == Some(k) <==> LeastFree(dir, name, from, k)
    ensures FirstFree(dir, name, from).None? <==> forall k: nat | from <= k < MAX_SUFFIX :: Candidate(name, k) in dir
    decreases MAX_SUFFIX - from
  {
    hide Candidate;
    if from < MAX_SUFFIX && Candidate(name, from) in dir {
      FirstFreeIsLeast(dir, name, from + 1);
      forall k: nat ensures LeastFree(dir, name, from, k) <==> LeastFree(dir, name, from + 1, k) {
      }
    }
  }

  const MAX_UPLOAD_NAME_BYTES := 240

  predicate IsControl(c: char) {
    c as int < 0x20 || 0x7f <= c as int < 0xa0
  }

  predicate ValidUploadName(name: string) {
    && name != "" && Utf8Length(name) <= MAX_UPLOAD_NAME_BYTES && name != "." && name != ".."
    && forall k | 0 <= k < |name| :: name[k] != '/' && name[k] != '\\' && !IsControl(name[k])
  }

  /** One component of a path: what it names is in the directory itself. */
  predicate PlainName(name: string) {
    && name != "" && name != "." && name != ".."
    && forall k | 0 <= k < |name| :: name[k] != '/' && name[k] != '\\' && !IsControl(name[k])
  }

  lemma {:induction false} DigitsArePlain(n: nat)
    ensures Itoa(n) != "" && forall k | 0 <= k < |Itoa(n)| :: '0' <= Itoa(n)[k] <= '9'
  {
    if n >= 10 {
      DigitsArePlain(n / 10);
    }
  }

  /**
    Whatever suffix is tried for a valid name, the file is in the directory itself; it keeps the
    extension and starts with what comes before it.
  */
  lemma CandidateIsPlain(name: string, suffix: nat)
    requires ValidUploadName(name)
    ensures PlainName(Candidate(name, suffix))
    ensures exists at: nat :: at <= |name| && IsStemAndExtension(name, at) &&
              (Candidate(name, suffix) == name[..at] + (if suffix == 0 then "" else " (" + Itoa(suffix) + ")") + name[at..])
  {
    hide Utf8Length, Itoa;
    var at := ExtensionStart(name);
    var digits := Itoa(suffix);
    DigitsArePlain(suffix);
    assert name[..at] + "" + name[at..] == name;
    assert IsStemAndExtension(name, at);
    if suffix > 0 {
      var c := Candidate(name, suffix);
      assert c == name[..at] + " (" + digits + ")" + name[at..];
      assert |c| > 2;
      forall k | 0 <= k < |c| ensures c[k] != '/' && c[k] != '\\' && !IsControl(c[k]) {
        if k < at {
          assert c[k] == name[k];
        } else if k >= at + 3 + |digits| {
          assert c[k] == name[k - 3 - |digits|];
        } else if at + 2 <= k < at + 2 + |digits| {
          assert c[k] == digits[k - at - 2];
        }
      }
    }
  }

  /** What is from `at` on is the extension: the last dot and what follows it, or nothing. */
  predicate IsStemAndExtension(name: string, at: nat)
    requires at <= |name|
  {
    if '.' in name then at < |name| && name[at] == '.' && '.' !in name[at + 1..] else at == |name|
  }
}
