/**
  Words of a command line, following sections 2.2 (Quoting) and 2.3 (Token Recognition) of the POSIX
  Shell Command Language. Unquoted expansions are not modelled: they end in a broken state. Operators
  are yielded character by character.
*/
module ShellTokens {
  import opened Wrappers

  datatype Token = Word(text: string) | Operator(c: char)

  datatype Mode = Plain | Escape | Single | Double | DoubleEscape | Comment | Broken

  /** `word` is the word being read, if one has begun. */
  datatype Reader = Reader(mode: Mode, tokens: seq<Token>, word: Option<string>)

  const START := Reader(Plain, [], None)

  predicate IsOperator(c: char) {
    c == '|' || c == '&' || c == ';' || c == '<' || c == '>' || c == '(' || c == ')' || c == '\n'
  }

  predicate IsBlank(c: char) {
    c == ' ' || c == '\t'
  }

  function Flushed(r: Reader): seq<Token> {
    if r.word.Some? then r.tokens + [Word(r.word.value)] else r.tokens
  }

  function Append(r: Reader, text: string): Reader {
    r.(word := Some((if r.word.Some? then r.word.value else "") + text))
  }

  function Read(r: Reader, c: char): Reader {
    match r.mode
    case Plain =>
      if c == '\\' then r.(mode := Escape)
      else if c == '\'' then Append(r, "").(mode := Single)
      else if c == '"' then Append(r, "").(mode := Double)
      else if IsBlank(c) then Reader(Plain, Flushed(r), None)
      else if IsOperator(c) then Reader(Plain, Flushed(r) + [Operator(c)], None)
      else if c == '$' || c == '`' then r.(mode := Broken)
      else if c == '#' && r.word.None? then r.(mode := Comment)
      else Append(r, [c])
    case Escape => if c == '\n' then r.(mode := Plain) else Append(r, [c]).(mode := Plain)
    case Single => if c == '\'' then r.(mode := Plain) else Append(r, [c])
    case Double =>
      if c == '"' then r.(mode := Plain)
      else if c == '\\' then r.(mode := DoubleEscape)
      else if c == '$' || c == '`' then r.(mode := Broken)
      else Append(r, [c])
    case DoubleEscape =>
      if c == '\n' then r.(mode := Double)
      else if c == '$' || c == '`' || c == '"' || c == '\\' then Append(r, [c]).(mode := Double)
      else Append(r, ['\\', c]).(mode := Double)
    case Comment => if c == '\n' then Reader(Plain, r.tokens + [Operator(c)], None) else r
    case Broken => r
  }

  function ReadAll(r: Reader, s: string): Reader {
    if s == "" then r else Read(ReadAll(r, s[..|s| - 1]), s[|s| - 1])
  }

  /** The tokens of a complete line; None when a quote is left open. */
  function Tokens(s: string): Option<seq<Token>> {
    var r := ReadAll(START, s);
    if r.mode == Plain || r.mode == Comment then Some(Flushed(r)) else None
  }

  lemma {:induction false} ReadConcat(r: Reader, s: string, t: string)
    ensures ReadAll(r, s + t) == ReadAll(ReadAll(r, s), t)
  {
    if t == "" {
      assert s + t == s;
    } else {
      ReadConcat(r, s, t[..|t| - 1]);
      assert (s + t)[..|s + t| - 1] == s + t[..|t| - 1];
    }
  }

  lemma ReadOne(r: Reader, c: char)
    ensures ReadAll(r, [c]) == Read(r, c)
  {
    assert [c][..0] == "";
    assert ReadAll(r, "") == r;
  }

  lemma AppendTwice(r: Reader, s: string, t: string)
    ensures Append(Append(r, s), t) == Append(r, s + t)
  {
    var w := if r.word.Some? then r.word.value else "";
    assert (w + s) + t == w + (s + t);
  }

  /** Appending nothing begins a word, or changes nothing. */
  lemma AppendNothing(r: Reader, s: string)
    ensures r.word.Some? ==> Append(r, "") == r
    ensures r.word.None? ==> Append(r, s) == r.(word := Some(s))
  {
    assert "" + s == s;
    assert r.word.Some? ==> r.word.value + "" == r.word.value;
  }

  /** Ordinary characters just extend the word. */
  predicate IsOrdinaryChar(c: char) {
    !IsBlank(c) && !IsOperator(c) && c != '\\' && c != '\'' && c != '"' && c != '$' && c != '`' && c != '#'
  }

  predicate IsOrdinary(s: string) {
    forall k | 0 <= k < |s| :: IsOrdinaryChar(s[k])
  }

  lemma {:induction false} ReadOrdinary(r: Reader, s: string)
    requires r.mode == Plain && IsOrdinary(s) && s != ""
    ensures ReadAll(r, s) == Append(r, s)
  {
    var n := |s| - 1;
    if n == 0 {
      assert s[..0] == "" && s == [s[0]];
    } else {
      ReadOrdinary(r, s[..n]);
      AppendTwice(r, s[..n], [s[n]]);
      assert s == s[..n] + [s[n]];
    }
  }
}
