/**
  Quoting paths for a shell: `shellQuotePath`, `directAttachmentInput` and `insertAttachmentPath`
  (web/src/terminal-attachments.ts), `shellQuote` and `darwinAttachCommand`
  (visibleterminal/visibleterminal.go). A character stands for one UTF-16 unit in the web client.
*/
module ShellQuoting {
  import opened Collections
  import opened ShellTokens
  import opened Wrappers

  /** How a single quote inside the quotes is written. */
  datatype Style = Backslash | DoubleQuoted

  function QuoteMark(style: Style): string {
    match style
    case Backslash => "'\\''"
    case DoubleQuoted => "'\"'\"'"
  }

  /** `replaceAll("'", mark)` */
  function Escaped(path: string, style: Style): string {
    if path == "" then ""
    else
      var last := path[|path| - 1];
      Escaped(path[..|path| - 1], style) + if last == '\'' then QuoteMark(style) else [last]
  }

  function Quoted(path: string, style: Style): string {
    "'" + Escaped(path, style) + "'"
  }

  function ShellQuotePath(path: string): string {
    Quoted(path, Backslash)
  }

  function ShellQuote(value: string): string {
    Quoted(value, DoubleQuoted)
  }

  // ---- reading back ----------------------------------------------------------------------------

  /** Out of the quotes, one literal quote, and in again. */
  lemma MarkReadsAsQuote(r: Reader, style: Style)
    requires r.mode == Single && r.word.Some?
    ensures ReadAll(r, QuoteMark(style)) == Append(r, "'")
  {
    AppendNothing(Append(r, "'"), "");
    AppendTwice(r, "", "'");
    AppendNothing(r, "");
    match style {
      case Backslash => ReadFour(r, '\'', '\\', '\'', '\'');
      case DoubleQuoted =>
        ReadFour(r, '\'', '"', '\'', '"');
        ReadConcat(r, "'\"'\"", "'");
        assert "'\"'\"" + "'" == QuoteMark(style);
        ReadOne(ReadAll(r, "'\"'\""), '\'');
    }
  }

  lemma ReadFour(r: Reader, a: char, b: char, c: char, d: char)
    ensures ReadAll(r, [a, b, c, d]) == Read(Read(Read(Read(r, a), b), c), d)
  {
    hide Read;
    assert [a, b, c, d][..3] == [a, b, c] && [a, b, c][..2] == [a, b] && [a, b][..1] == [a];
    ReadOne(r, a);
    assert ReadAll(r, [a, b]) == Read(ReadAll(r, [a]), b);
    assert ReadAll(r, [a, b, c]) == Read(ReadAll(r, [a, b]), c);
  }

  lemma {:induction false} EscapedReadsAsPath(r: Reader, path: string, style: Style)
    requires r.mode == Single && r.word.Some?
    ensures ReadAll(r, Escaped(path, style)) == Append(r, path)
  {
    if path == "" {
      assert r.word.value + "" == r.word.value;
    } else {
      var n := |path| - 1;
      var before := Append(r, path[..n]);
      EscapedReadsAsPath(r, path[..n], style);
      assert path == path[..n] + [path[n]];
      AppendTwice(r, path[..n], [path[n]]);
      if path[n] == '\'' {
        ReadConcat(r, Escaped(path[..n], style), QuoteMark(style));
        MarkReadsAsQuote(before, style);
      } else {
        ReadConcat(r, Escaped(path[..n], style), [path[n]]);
        ReadOne(before, path[n]);
      }
    }
  }

  /** Wherever an unquoted reader stands, the quoted path extends its word by exactly the path. */
  lemma QuotedReadsAsPath(r: Reader, path: string, style: Style)
    requires r.mode == Plain
    ensures ReadAll(r, Quoted(path, style)) == Append(r, path)
  {
    var inside := Append(r, "").(mode := Single);
    ReadConcat(r, "'" + Escaped(path, style), "'");
    ReadConcat(r, "'", Escaped(path, style));
    ReadOne(r, '\'');
    EscapedReadsAsPath(inside, path, style);
    ReadOne(Append(inside, path), '\'');
    AppendTwice(r, "", path);
    assert "" + path == path;
  }

  /** For every path and both styles, a shell reads the quoted path back as exactly one word, the path itself. */
  lemma QuotingRoundTrips(path: string, style: Style)
    ensures Tokens(Quoted(path, style)) == Some([Word(path)])
  {
    QuotedReadsAsPath(START, path, style);
    AppendNothing(START, path);
    assert START.tokens + [Word(path)] == [Word(path)];
  }

  function DirectAttachmentInput(path: string): string {
    " " + ShellQuotePath(path)
  }

  /** Typed at a prompt, after whatever complete words are there, the attachment is a word of its own. */
  lemma DirectInputIsOneWord(line: string, path: string)
    requires ReadAll(START, line).mode == Plain
    ensures Tokens(line).Some? && Tokens(line + DirectAttachmentInput(path)) == Some(Tokens(line).value + [Word(path)])
  {
    var r := ReadAll(START, line);
    ReadConcat(START, line, DirectAttachmentInput(path));
    ReadConcat(r, " ", ShellQuotePath(path));
    ReadOne(r, ' ');
    QuotedReadsAsPath(Read(r, ' '), path, Backslash);
    assert "" + path == path;
  }

  // ---- inserting into a text -------------------------------------------------------------------

  /** JavaScript's `\s` */
  predicate IsJsSpace(c: char) {
    var n := c as int;
    || 0x09 <= n <= 0x0d || n == 0x20 || n == 0xa0 || n == 0x1680 || 0x2000 <= n <= 0x200a
    || n == 0x2028 || n == 0x2029 || n == 0x202f || n == 0x205f || n == 0x3000 || n == 0xfeff
  }

  datatype Insertion = Insertion(value: string, caret: nat)

  function Clamp(low: int, n: int, high: int): int {
    var m := if n < high then n else high;
    if low < m then m else low
  }

  /** `x` is between `low` and `high`, and no other number there is nearer to `n`. */
  predicate IsNearest(x: int, n: int, low: int, high: int) {
    low <= x <= high && (x < n ==> x == high) && (n < x ==> x == low)
  }

  function Prefix(before: string): string {
    if before != "" && !IsJsSpace(before[|before| - 1]) then " " else ""
  }

  function Suffix(after: string): string {
    if after != "" && !IsJsSpace(after[0]) then " " else ""
  }

  function InsertAttachmentPath(value: string, path: string, selectionStart: int, selectionEnd: int): Insertion {
    var start := Clamp(0, selectionStart, |value|);
    var end := Clamp(start, selectionEnd, |value|);
    var inserted := Prefix(value[..start]) + ShellQuotePath(path) + Suffix(value[end..]);
    Insertion(value[..start] + inserted + value[end..], start + |inserted|)
  }

  /**
    The text outside the (clamped) selection stays, the caret is just after what was inserted, and the
    insertion is the quoted path with a space in front unless white space or nothing comes before it,
    and one behind unless white space or nothing comes after it.
  */
  lemma InsertionKeepsText(value: string, path: string, selectionStart: int, selectionEnd: int)
    returns (start: nat, end: nat, lead: string, trail: string)
    ensures start <= end <= |value|
    ensures IsNearest(start, selectionStart, 0, |value|) && IsNearest(end, selectionEnd, start, |value|)
    ensures lead in {"", " "} && (lead == "" <==> start == 0 || IsJsSpace(value[start - 1]))
    ensures trail in {"", " "} && (trail == "" <==> end == |value| || IsJsSpace(value[end]))
    ensures var r := InsertAttachmentPath(value, path, selectionStart, selectionEnd);
            && start <= r.caret <= |r.value|
            && r.value[..start] == value[..start] && r.value[r.caret..] == value[end..]
            && r.value[start..r.caret] == lead + ShellQuotePath(path) + trail
  {
    start := Clamp(0, selectionStart, |value|);
    end := Clamp(start, selectionEnd, |value|);
    var before, after := value[..start], value[end..];
    lead, trail := Prefix(before), Suffix(after);
    assert 0 < start ==> value[start - 1] == before[start - 1];
    hide Quoted, IsJsSpace;
    assert InsertAttachmentPath(value, path, selectionStart, selectionEnd) ==
           Insertion(before + (lead + ShellQuotePath(path) + trail) + after, start + |lead + ShellQuotePath(path) + trail|);
    hide InsertAttachmentPath, ShellQuotePath;
    Spliced(before, lead + ShellQuotePath(path) + trail, after);
  }

  lemma Spliced(before: string, inserted: string, after: string)
    ensures var whole := before + inserted + after;
            && whole[..|before|] == before && whole[|before|..|before| + |inserted|] == inserted
            && whole[|before| + |inserted|..] == after
  {
  }

  /**
    To a shell, the path inserted after unquoted text is the start of a word of its own exactly when no
    word is still being read there, or a space was put in front of it.
  */
  lemma InsertedStartsAWord(before: string, path: string)
    requires ReadAll(START, before).mode == Plain
    ensures var r, n := ReadAll(START, before), ReadAll(START, before + (Prefix(before) + ShellQuotePath(path)));
            && n.mode == Plain
            && (n == Reader(Plain, Flushed(r), Some(path)) <==> r.word.None? || Prefix(before) == " ")
            && (r.word.Some? && Prefix(before) == "" ==> n.word == Some(r.word.value + path))
  {
    var r := ReadAll(START, before);
    ReadConcat(START, before, Prefix(before) + ShellQuotePath(path));
    ReadConcat(r, Prefix(before), ShellQuotePath(path));
    ReadOne(r, ' ');
    if Prefix(before) == " " {
      QuotedReadsAsPath(Read(r, ' '), path, Backslash);
      assert "" + path == path;
    } else {
      QuotedReadsAsPath(r, path, Backslash);
      assert "" + path == path;
    }
  }

  /**
    So a path inserted after a no-break space, which JavaScript counts as white space, is glued to the
    word before it: the shell reads one word, and not the path.
  */
  lemma NoBreakSpaceGlues(path: string)
    ensures var line := "a\U{a0}";
            && InsertAttachmentPath(line, path, 2, 2).value == line + ShellQuotePath(path)
            && Tokens(line + ShellQuotePath(path)) == Some([Word(line + path)])
  {
    hide Quoted, ReadAll;
    var line := "a\U{a0}";
    assert line[..2] == line && line[2..] == "";
    assert ShellQuotePath(path) + "" == ShellQuotePath(path);
    ReadOrdinary(START, line);
    AppendNothing(START, line);
    ReadConcat(START, line, ShellQuotePath(path));
    QuotedReadsAsPath(Append(START, line), path, Backslash);
    AppendTwice(START, line, path);
    AppendNothing(START, line + path);
    assert START.tokens + [Word(line + path)] == [Word(line + path)];
  }

  // ---- the macOS attach command ----------------------------------------------------------------

  function DarwinAttachCommand(executable: string, stateDir: string, sessionID: string): string {
    "env TERMLINKS_STATE_DIR=" + ShellQuote(stateDir) + " " + ShellQuote(executable) + " __viewer " + ShellQuote(sessionID) + "; exit 0"
  }

  /** The reader between words, with these tokens read. */
  function Between(tokens: seq<Token>): Reader {
    Reader(Plain, tokens, None)
  }

  /** An ordinary word, then a blank. */
  lemma PlainWord(tokens: seq<Token>, s: string)
    requires IsOrdinary(s) && s != ""
    ensures ReadAll(Between(tokens), s) == Append(Between(tokens), s)
    ensures ReadAll(Between(tokens), s + " ") == Between(tokens + [Word(s)])
  {
    var r := Between(tokens);
    ReadConcat(r, s, " ");
    ReadOrdinary(r, s);
    AppendNothing(r, s);
    ReadOne(Append(r, s), ' ');
  }

  /** A quoted word, appended to what has been read of it, then a separator. */
  lemma QuotedWord(tokens: seq<Token>, begun: string, value: string, c: char)
    requires c == ' ' || c == ';'
    ensures ReadAll(Append(Between(tokens), begun), ShellQuote(value) + [c]) ==
            Between(tokens + [Word(begun + value)] + if c == ' ' then [] else [Operator(c)])
  {
    var r := Append(Between(tokens), begun);
    hide Quoted;
    ReadConcat(r, ShellQuote(value), [c]);
    QuotedReadsAsPath(r, value, DoubleQuoted);
    AppendTwice(Between(tokens), begun, value);
    AppendNothing(Between(tokens), begun + value);
    ReadOne(Append(r, value), c);
    assert tokens + [Word(begun + value)] + [] == tokens + [Word(begun + value)];
  }

  /** A word that is quoted from its start. */
  lemma WholeQuotedWord(tokens: seq<Token>, value: string, c: char)
    requires c == ' ' || c == ';'
    ensures ReadAll(Between(tokens), ShellQuote(value) + [c]) == Between(tokens + [Word(value)] + if c == ' ' then [] else [Operator(c)])
  {
    var r := Between(tokens);
    hide Quoted;
    ReadConcat(r, ShellQuote(value), [c]);
    QuotedReadsAsPath(r, value, DoubleQuoted);
    AppendNothing(r, value);
    ReadOne(Append(r, value), c);
    assert tokens + [Word(value)] + [] == tokens + [Word(value)];
  }

  lemma ReadSpace(tokens: seq<Token>)
    ensures ReadAll(Between(tokens), " ") == Between(tokens)
  {
    ReadOne(Between(tokens), ' ');
  }

  lemma ReadExit(tokens: seq<Token>)
    ensures ReadAll(Between(tokens), " exit 0") == Append(Between(tokens + [Word("exit")]), "0")
  {
    assert " exit 0" == " " + ("exit" + " ") + "0";
    hide ReadAll, Append;
    ReadConcat(Between(tokens), " " + ("exit" + " "), "0");
    ReadConcat(Between(tokens), " ", "exit" + " ");
    ReadSpace(tokens);
    PlainWord(tokens, "exit");
    PlainWord(tokens + [Word("exit")], "0");
  }

  /** Whatever the three values hold, the shell runs `env` with exactly these words, then `exit 0`. */
  lemma AttachCommandWords(executable: string, stateDir: string, sessionID: string)
    ensures Tokens(DarwinAttachCommand(executable, stateDir, sessionID)) ==
            Some([Word("env"), Word("TERMLINKS_STATE_DIR=" + stateDir), Word(executable), Word("__viewer"), Word(sessionID),
                  Operator(';'), Word("exit"), Word("0")])
  {
    var n := "TERMLINKS_STATE_DIR=";
    var a, b, c := ShellQuote(stateDir) + [' '], ShellQuote(executable) + [' '], ShellQuote(sessionID) + [';'];
    assert DarwinAttachCommand(executable, stateDir, sessionID) == (((((("env" + " ") + n) + a) + b) + ("__viewer" + " ")) + c) + " exit 0" by {
      hide Quoted;
      SameCommand(ShellQuote(stateDir), ShellQuote(executable), ShellQuote(sessionID));
    }
    AttachReads(stateDir, executable, sessionID);
    var t := [Word("env"), Word(n + stateDir), Word(executable), Word("__viewer"), Word(sessionID), Operator(';')];
    AppendNothing(Between(t + [Word("exit")]), "0");
    assert t + [Word("exit")] + [Word("0")] ==
           [Word("env"), Word(n + stateDir), Word(executable), Word("__viewer"), Word(sessionID), Operator(';'), Word("exit"), Word("0")];
    hide ReadAll, Quoted, DarwinAttachCommand;
  }

  lemma AttachReads(stateDir: string, executable: string, sessionID: string)
    ensures var n, a, b, c := "TERMLINKS_STATE_DIR=", ShellQuote(stateDir) + [' '], ShellQuote(executable) + [' '], ShellQuote(sessionID) + [';'];
            ReadAll(START, (((((("env" + " ") + n) + a) + b) + ("__viewer" + " ")) + c) + " exit 0") ==
            Append(Between([Word("env"), Word(n + stateDir), Word(executable), Word("__viewer"), Word(sessionID), Operator(';')] + [Word("exit")]), "0")
  {
    var n, a, b, c := "TERMLINKS_STATE_DIR=", ShellQuote(stateDir) + [' '], ShellQuote(executable) + [' '], ShellQuote(sessionID) + [';'];
    var env, viewer := "env" + " ", "__viewer" + " ";
    var t1 := [Word("env")];
    var t2 := [Word("env"), Word(n + stateDir)];
    var t3 := [Word("env"), Word(n + stateDir), Word(executable)];
    var t4 := [Word("env"), Word(n + stateDir), Word(executable), Word("__viewer")];
    var t5 := [Word("env"), Word(n + stateDir), Word(executable), Word("__viewer"), Word(sessionID), Operator(';')];
    assert t1 == [] + [Word("env")] && t2 == t1 + [Word(n + stateDir)] + [] && t3 == t2 + [Word(executable)] + [];
    assert t4 == t3 + [Word("__viewer")] && t5 == t4 + [Word(sessionID)] + [Operator(';')];
    assert START == Between([]);
    hide *;
    FixedWordsAreOrdinary();
    PlainWord([], "env");
    PlainWord(t1, n);
    QuotedWord(t1, n, stateDir, ' ');
    WholeQuotedWord(t2, executable, ' ');
    PlainWord(t3, "__viewer");
    WholeQuotedWord(t4, sessionID, ';');
    ReadExit(t5);
    Chain(START, env, n, a, b, Between(t1), Append(Between(t1), n), Between(t2));
    Chain(START, ((env + n) + a) + b, viewer, c, " exit 0", Between(t3), Between(t4), Between(t5));
  }

  lemma FixedWordsAreOrdinary()
    ensures IsOrdinary("env") && IsOrdinary("TERMLINKS_STATE_DIR=") && IsOrdinary("__viewer")
  {
  }

  lemma Chain(r: Reader, a: string, b: string, c: string, d: string, r1: Reader, r2: Reader, r3: Reader)
    requires ReadAll(r, a) == r1 && ReadAll(r1, b) == r2 && ReadAll(r2, c) == r3
    ensures ReadAll(r, ((a + b) + c) + d) == ReadAll(r3, d)
  {
    hide ReadAll;
    ReadConcat(r, a, b);
    ReadConcat(r, a + b, c);
    ReadConcat(r, (a + b) + c, d);
  }

  lemma SameCommand(a: string, b: string, c: string)
    ensures "env TERMLINKS_STATE_DIR=" + a + " " + b + " __viewer " + c + "; exit 0" ==
            (((((("env" + " ") + "TERMLINKS_STATE_DIR=") + (a + [' '])) + (b + [' '])) + ("__viewer" + " ")) + (c + [';'])) + " exit 0"
  {
    assert "env TERMLINKS_STATE_DIR=" == ("env" + " ") + "TERMLINKS_STATE_DIR=";
    assert " __viewer " == [' '] + ("__viewer" + " ") && "; exit 0" == [';'] + " exit 0" && " " == [' '];
    var h := ("env" + " ") + "TERMLINKS_STATE_DIR=";
    Associate(h, a, [' ']);
    Associate(h + (a + [' ']) + b, [' '], "__viewer" + " ");
    Associate(h + (a + [' ']), b, [' ']);
    Associate(h + (a + [' ']) + (b + [' ']) + ("__viewer" + " ") + c, [';'], " exit 0");
    Associate(h + (a + [' ']) + (b + [' ']) + ("__viewer" + " "), c, [';']);
  }

}
