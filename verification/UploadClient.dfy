/** The browser's side of an upload (`uploadFile` and `uploadExchange` in web/src/main.ts), run against the connector. */
module UploadClient {
  import opened Base64Url
  import opened Bytes
  import opened Text
  import opened UploadHandlers
  import opened UploadPaths
  import opened UploadRuns
  import opened Uploads
  import opened Wrappers

  const CHUNK_SIZE := 192 * 1024

  /**
    One exchange as the environment plays it: other traffic before the request and after it, whether
    the request gets through, and whether its reply does.
  */
  datatype Turn = Turn(before: seq<Event>, after: seq<Event>, temp: string, fault: Fault, delivered: bool, answered: bool)

  datatype Outcome = Resolved(path: string) | Rejected

  /** The events lead from `s` to `n`, and those of `key` complete no file. */
  ghost predicate SavesNothing(s: Server, n: Server, events: seq<Event>, key: Key) {
    n == RunEvents(s, events) && SavedBy(s, events, Some(key)) == map[]
  }

  /**
    The events lead from `s` to `n`; those of `key` complete exactly `content` under `path`, or, without
    a path, nothing, except that a file whose completion was not `answered` is there.
  */
  ghost predicate SavesFile(s: Server, n: Server, events: seq<Event>, key: Key, content: Bytes, path: Option<string>, answered: bool) {
    && n == RunEvents(s, events)
    && var own := SavedBy(s, events, Some(key));
       if path.Some? then own == map[path.value := content]
       else own == map[] || (!answered && exists lost :: own == map[lost := content])
  }

  lemma SavingNothing(s: Server, n: Server, events: seq<Event>, key: Key, content: Bytes, answered: bool)
    requires SavesNothing(s, n, events, key)
    ensures SavesFile(s, n, events, key, content, None, answered)
  {
  }

  lemma NothingYet(s: Server, key: Key)
    ensures SavesNothing(s, s, [], key)
  {
  }

  /** A run that has saved nothing yet goes on. */
  lemma GoesOn(s: Server, a: seq<Event>, b: seq<Event>, key: Key)
    requires SavedBy(s, a, Some(key)) == map[]
    ensures RunEvents(s, a + b) == RunEvents(RunEvents(s, a), b)
    ensures SavedBy(s, a + b, Some(key)) == SavedBy(RunEvents(s, a), b, Some(key))
  {
    hide *;
    RunConcat(s, a, b);
    SavedConcat(s, a, b, Some(key));
    JoinMaps(SavedBy(RunEvents(s, a), b, Some(key)), map[], map[]);
  }

  lemma StillNothing(s: Server, m: Server, n: Server, a: seq<Event>, b: seq<Event>, key: Key)
    requires SavesNothing(s, m, a, key) && SavesNothing(m, n, b, key)
    ensures SavesNothing(s, n, a + b, key)
  {
    hide RunEvents, SavedBy;
    GoesOn(s, a, b, key);
  }

  lemma ThenSaves(s: Server, m: Server, n: Server, a: seq<Event>, b: seq<Event>, key: Key, content: Bytes, path: Option<string>, answered: bool)
    requires SavesNothing(s, m, a, key) && SavesFile(m, n, b, key, content, path, answered)
    ensures SavesFile(s, n, a + b, key, content, path, answered)
  {
    hide RunEvents, SavedBy;
    GoesOn(s, a, b, key);
  }

  // ---- one upload among others -----------------------------------------------------------------

  /** Ids are fresh UUIDs, so no other message carries ours. */
  predicate NotOurs(events: seq<Event>, key: Key) {
    forall k | 0 <= k < |events| && events[k].Handled? :: events[k].key != key
  }

  /** Nothing interferes and nothing fails. */
  predicate Calm(turn: Turn) {
    turn.before == [] && turn.after == [] && turn.fault == NoFault && turn.delivered && turn.answered
  }

  predicate Script(turns: seq<Turn>, key: Key) {
    forall k | 0 <= k < |turns| :: NotOurs(turns[k].before, key) && NotOurs(turns[k].after, key)
  }

  /** Our upload is as it was, or dropped. */
  ghost predicate Spares(s: Server, n: Server, key: Key) {
    key in n.uploads ==> key in s.uploads && n.uploads[key] == s.uploads[key] && Contents(n, n.uploads[key]) == Contents(s, s.uploads[key])
  }

  lemma NothingNew(s: Server, n: Server, key: Key, k: Key, m: Message, temp: string, fault: Fault)
    requires k != key && n == Handle(s, k, m, temp, fault).0 && key in n.uploads
    ensures key in s.uploads
  {
    hide ValidUploadName, FirstFree, Candidate, ValidChunk, OnChannel;
  }

  lemma OtherSpares(s: Server, key: Key, k: Key, m: Message, temp: string, fault: Fault)
    requires Valid(s) && k != key
    ensures Spares(s, Handle(s, k, m, temp, fault).0, key)
  {
    var n := Handle(s, k, m, temp, fault).0;
    hide Handle, Valid, Preserves, Kept;
    HandleKeeps(s, k, m, temp, fault);
    assert SameUpload(s, n, key);
    if key in n.uploads {
      NothingNew(s, n, key, k, m, temp, fault);
    }
  }

  lemma CloseSpares(s: Server, key: Key, channel: string)
    requires Valid(s)
    ensures Spares(s, CloseChannel(s, channel), key)
  {
    CloseKeeps(s, channel);
    assert key.channel != channel ==> SameUpload(s, CloseChannel(s, channel), key);
    hide Kept, Valid;
  }

  lemma {:induction false} OthersSpare(s: Server, events: seq<Event>, key: Key)
    requires Valid(s) && NotOurs(events, key)
    ensures Valid(RunEvents(s, events)) && Spares(s, RunEvents(s, events), key) && SavedBy(s, events, Some(key)) == map[]
  {
    hide Valid, Handle, CloseChannel, SavedAt, Kept;
    if events != [] {
      var before := events[..|events| - 1];
      OthersSpare(s, before, key);
      RunKeeps(s, events);
      match events[|events| - 1]
      case Handled(k, m, temp, fault) => OtherSpares(RunEvents(s, before), key, k, m, temp, fault);
      case Closes(channel) => CloseSpares(RunEvents(s, before), key, channel);
    }
  }

  method Meanwhile(server: UploadServer, events: seq<Event>)
    requires server.Ok()
    modifies server
    ensures server.Ok() && server.State() == RunEvents(old(server.State()), events)
  {
    hide Handle, CloseChannel, Valid, Tracks;
    for k := 0 to |events|
      invariant server.Ok() && server.State() == RunEvents(old(server.State()), events[..k])
    {
      assert events[..k + 1][..k] == events[..k];
      match events[k] {
        case Handled(key, message, temp, fault) => var _ := server.HandleMessage(key, message, temp, fault);
        case Closes(channel) => server.CloseUploads(channel);
      }
    }
    assert events[..|events|] == events;
  }

  /** What the connector sees of an exchange. */
  function Request(key: Key, m: Message, turn: Turn): seq<Event> {
    if turn.delivered then [Handled(key, m, turn.temp, turn.fault)] else []
  }

  function Seen(key: Key, m: Message, turn: Turn): seq<Event> {
    turn.before + Request(key, m, turn) + turn.after
  }

  function Answer(s: Server, key: Key, m: Message, turn: Turn): Reply {
    if turn.delivered && turn.answered then Handle(s, key, m, turn.temp, turn.fault).1 else Failed
  }

  /** `uploadExchange`: resolves only with the expected reply; no answer, an error or a closed channel rejects. */
  method Exchange(server: UploadServer, key: Key, m: Message, turn: Turn) returns (reply: Reply)
    requires server.Ok()
    modifies server
    ensures server.Ok() && server.State() == RunEvents(old(server.State()), Seen(key, m, turn))
    ensures reply == Answer(RunEvents(old(server.State()), turn.before), key, m, turn)
  {
    hide Handle, Tracks, Valid;
    ghost var was := server.State();
    Meanwhile(server, turn.before);
    ghost var before := server.State();
    reply := Failed;
    if turn.delivered {
      reply := server.HandleMessage(key, m, turn.temp, turn.fault);
    }
    SeenRuns(was, key, m, turn);
    Meanwhile(server, turn.after);
    if !turn.answered {
      reply := Failed;
    }
  }

  lemma SeenRuns(s: Server, key: Key, m: Message, turn: Turn)
    ensures var before := RunEvents(s, turn.before);
            var at := if turn.delivered then Handle(before, key, m, turn.temp, turn.fault).0 else before;
            RunEvents(s, Seen(key, m, turn)) == RunEvents(at, turn.after)
  {
    hide Handle;
    var before := RunEvents(s, turn.before);
    RunConcat(s, turn.before, Request(key, m, turn));
    RunConcat(s, turn.before + Request(key, m, turn), turn.after);
    if turn.delivered {
      RunOne(before, Handled(key, m, turn.temp, turn.fault), None);
    }
  }

  /** The states of an exchange as far as our upload goes: `before` the request, `at` its handling, and `end`. */
  lemma ExchangeFacts(s: Server, key: Key, m: Message, turn: Turn) returns (before: Server, at: Server, end: Server)
    requires Valid(s) && NotOurs(turn.before, key) && NotOurs(turn.after, key)
    ensures before == RunEvents(s, turn.before) && end == RunEvents(s, Seen(key, m, turn))
    ensures at == if turn.delivered then Handle(before, key, m, turn.temp, turn.fault).0 else before
    ensures Valid(before) && Spares(s, before, key) && Spares(at, end, key)
    ensures SavedBy(s, Seen(key, m, turn), Some(key)) ==
            if turn.delivered then SavedAt(before, Handled(key, m, turn.temp, turn.fault)) else map[]
    ensures Calm(turn) ==> before == s && at == end
  {
    hide Handle, Valid, Spares, SavedAt, Kept;
    var sent := Request(key, m, turn);
    before, end := RunEvents(s, turn.before), RunEvents(s, Seen(key, m, turn));
    at := RunEvents(before, sent);
    OthersSpare(s, turn.before, key);
    GoesOn(s, turn.before, sent, key);
    RunConcat(s, turn.before + sent, turn.after);
    SavedConcat(s, turn.before + sent, turn.after, Some(key));
    RunKeeps(before, sent);
    OthersSpare(at, turn.after, key);
    JoinMaps(SavedBy(before, sent, Some(key)), map[], map[]);
    if turn.delivered {
      RunOne(before, Handled(key, m, turn.temp, turn.fault), Some(key));
    }
  }

  /** The connector holds exactly the first `offset` bytes of the file. */
  ghost predicate Holds(s: Server, key: Key, name: string, content: Bytes, offset: nat) {
    key in s.uploads ==>
      && offset <= |content| && s.uploads[key].name == name && s.uploads[key].size == |content|
      && s.uploads[key].received == offset && Contents(s, s.uploads[key]) == content[..offset]
  }

  lemma StartHolds(s: Server, key: Key, name: string, content: Bytes, temp: string, fault: Fault)
    requires Valid(s)
    ensures var (n, reply) := Handle(s, key, Start(name, |content|), temp, fault);
            reply.Ready? ==> Holds(n, key, name, content, 0)
  {
    StartKeeps(s, key, name, |content|, temp, fault);
  }

  lemma ChunkHolds(s: Server, key: Key, name: string, content: Bytes, offset: nat, end: nat, temp: string, fault: Fault)
    requires Valid(s) && Holds(s, key, name, content, offset) && offset <= end <= |content|
    ensures var (n, reply) := Handle(s, key, Chunk(offset, GoDecode(GoEncode(content[offset..end]))), temp, fault);
            reply.Progress? ==> Holds(n, key, name, content, end)
  {
    hide GoEncode, GoDecode, BrowserEncode, BrowserDecode, Valid, Kept, WriteUpload, Contents, SameUpload;
    RoundTrip(content[offset..end]);
    WriteKeeps(s, key, offset, Some(content[offset..end]), fault);
    assert content[..offset] + content[offset..end] == content[..end];
  }

  lemma FinishSaves(s: Server, key: Key, name: string, content: Bytes, temp: string, fault: Fault)
    requires Holds(s, key, name, content, |content|)
    ensures var reply, saved := Handle(s, key, Finish, temp, fault).1, SavedAt(s, Handled(key, Finish, temp, fault));
            if reply.Complete? then saved == map[reply.path := content] else saved == map[]
  {
    assert content[..|content|] == content;
    hide FirstFree, Candidate, Contents;
  }

  predicate CanStart(s: Server, key: Key, name: string, size: nat, temp: string) {
    && ValidUploadName(name) && size <= MAX_UPLOAD_SIZE && key !in s.uploads
    && |OnChannel(s.uploads, key.channel)| < MAX_ACTIVE && temp !in s.dir
  }

  lemma StartSucceeds(s: Server, key: Key, name: string, size: nat, temp: string)
    ensures var (n, reply) := Handle(s, key, Start(name, size), temp, NoFault);
            CanStart(s, key, name, size, temp) ==> reply.Ready? && key in n.uploads && n.dir.Keys == s.dir.Keys + {temp}
  {
    hide ValidUploadName;
  }

  lemma ChunkSucceeds(s: Server, key: Key, name: string, content: Bytes, offset: nat, end: nat, temp: string)
    requires Valid(s) && Holds(s, key, name, content, offset) && offset <= end <= |content|
    ensures var (n, reply) := Handle(s, key, Chunk(offset, GoDecode(GoEncode(content[offset..end]))), temp, NoFault);
            key in s.uploads && end - offset <= CHUNK_SIZE ==> reply.Progress? && key in n.uploads && n.dir.Keys == s.dir.Keys
  {
    hide GoEncode, GoDecode, BrowserEncode, BrowserDecode, OwnTemps, FewActive;
    RoundTrip(content[offset..end]);
    assert key in s.uploads ==> UploadOk(s, s.uploads[key]);
  }

  lemma FinishSucceeds(s: Server, key: Key, name: string, content: Bytes, temp: string)
    requires Holds(s, key, name, content, |content|)
    ensures key in s.uploads && FirstFree(s.dir, name, 0).Some? ==> Handle(s, key, Finish, temp, NoFault).1.Complete?
  {
    hide FirstFree;
  }

  lemma HoldsStays(s: Server, n: Server, key: Key, name: string, content: Bytes, offset: nat)
    requires Holds(s, key, name, content, offset) && Spares(s, n, key)
    ensures Holds(n, key, name, content, offset)
  {
  }

  /** `turns[k]`, or a request that gets lost. */
  function TurnAt(turns: seq<Turn>, k: nat): Turn {
    if k < |turns| then turns[k] else Turn([], [], "", NoFault, false, false)
  }

  ghost predicate InScript(e: Event, turns: seq<Turn>) {
    exists k :: 0 <= k < |turns| && (e in turns[k].before || e in turns[k].after)
  }

  /** Nothing happens but our own messages and what the script plays. */
  ghost predicate Plays(events: seq<Event>, turns: seq<Turn>, key: Key) {
    forall e | e in events :: (e.Handled? && e.key == key) || InScript(e, turns)
  }

  lemma SeenPlays(key: Key, m: Message, turns: seq<Turn>, k: nat)
    ensures Plays(Seen(key, m, TurnAt(turns, k)), turns, key)
  {
    forall e | e in Seen(key, m, TurnAt(turns, k)) ensures (e.Handled? && e.key == key) || InScript(e, turns) {
      if e in TurnAt(turns, k).before || e in TurnAt(turns, k).after {
        assert k < |turns| && (e in turns[k].before || e in turns[k].after);
      }
    }
  }

  lemma PlaysNothing(turns: seq<Turn>, key: Key)
    ensures Plays([], turns, key)
  {
  }

  lemma PlaysOn(a: seq<Event>, b: seq<Event>, turns: seq<Turn>, key: Key)
    requires Plays(a, turns, key) && Plays(b, turns, key)
    ensures Plays(a + b, turns, key)
  {
    hide InScript;
  }

  method StartExchange(server: UploadServer, key: Key, name: string, content: Bytes, turn: Turn) returns (ok: bool)
    requires server.Ok() && NotOurs(turn.before, key) && NotOurs(turn.after, key)
    modifies server
    ensures server.Ok() && SavesNothing(old(server.State()), server.State(), Seen(key, Start(name, |content|), turn), key)
    ensures ok ==> Holds(server.State(), key, name, content, 0)
    ensures Calm(turn) && CanStart(old(server.State()), key, name, |content|, turn.temp) ==>
              ok && key in server.uploads && server.dir.Keys == old(server.dir.Keys) + {turn.temp}
  {
    hide Handle, Tracks, Valid, Holds, RunEvents, SavedBy, Seen;
    ghost var before, at, end := ExchangeFacts(server.State(), key, Start(name, |content|), turn);
    var reply := Exchange(server, key, Start(name, |content|), turn);
    StartHolds(before, key, name, content, turn.temp, turn.fault);
    StartSucceeds(before, key, name, |content|, turn.temp);
    StartSavesNothing(before, key, name, |content|, turn.temp, turn.fault);
    ok := reply.Ready?;
    if ok {
      HoldsStays(at, end, key, name, content, 0);
    }
  }

  lemma StartSavesNothing(s: Server, key: Key, name: string, size: int, temp: string, fault: Fault)
    ensures SavedAt(s, Handled(key, Start(name, size), temp, fault)) == map[]
  {
    StartNotComplete(s, key, name, size, temp, fault);
    hide StartUpload;
  }

  lemma ChunkSavesNothing(s: Server, key: Key, offset: int, data: Option<Bytes>, temp: string, fault: Fault)
    ensures SavedAt(s, Handled(key, Chunk(offset, data), temp, fault)) == map[]
  {
    hide ValidChunk;
  }

  method ChunkExchange(server: UploadServer, key: Key, ghost name: string, content: Bytes, offset: nat, end: nat, turn: Turn)
    returns (ok: bool, ghost trace: seq<Event>)
    requires server.Ok() && NotOurs(turn.before, key) && NotOurs(turn.after, key)
    requires offset <= end <= |content| && Holds(server.State(), key, name, content, offset)
    modifies server
    ensures server.Ok() && SavesNothing(old(server.State()), server.State(), trace, key)
    ensures trace == Seen(key, Chunk(offset, GoDecode(GoEncode(content[offset..end]))), turn)
    ensures ok ==> Holds(server.State(), key, name, content, end)
    ensures Calm(turn) && key in old(server.uploads) && end - offset <= CHUNK_SIZE ==>
              ok && key in server.uploads && server.dir.Keys == old(server.dir.Keys)
  {
    hide Handle, Tracks, Valid, Holds, GoDecode, GoEncode, RunEvents, SavedBy, Seen;
    ghost var was := server.State();
    var m := Chunk(offset, GoDecode(GoEncode(content[offset..end])));
    trace := Seen(key, m, turn);
    ghost var before, at, last := ExchangeFacts(was, key, m, turn);
    var reply := Exchange(server, key, m, turn);
    HoldsStays(was, before, key, name, content, offset);
    ChunkHolds(before, key, name, content, offset, end, turn.temp, turn.fault);
    ChunkSucceeds(before, key, name, content, offset, end, turn.temp);
    ChunkSavesNothing(before, key, offset, m.data, turn.temp, turn.fault);
    ok := reply.Progress?;
    if ok {
      HoldsStays(at, last, key, name, content, end);
    }
  }

  /** Resolves with the path of the file; otherwise the file is there only if the reply got lost. */
  method FinishExchange(server: UploadServer, key: Key, ghost name: string, ghost content: Bytes, turn: Turn) returns (path: Option<string>)
    requires server.Ok() && NotOurs(turn.before, key) && NotOurs(turn.after, key)
    requires Holds(server.State(), key, name, content, |content|)
    modifies server
    ensures server.Ok() && SavesFile(old(server.State()), server.State(), Seen(key, Finish, turn), key, content, path, turn.answered)
    ensures Calm(turn) && key in old(server.uploads) && FirstFree(old(server.dir), name, 0).Some? ==> path.Some?
  {
    hide Handle, Tracks, Valid, Holds, Kept, FirstFree, RunEvents, SavedBy, SavedAt, Seen;
    ghost var was := server.State();
    ghost var before, at, last := ExchangeFacts(was, key, Finish, turn);
    var reply := Exchange(server, key, Finish, turn);
    HoldsStays(was, before, key, name, content, |content|);
    FinishSaves(before, key, name, content, turn.temp, turn.fault);
    FinishSucceeds(before, key, name, content, turn.temp);
    path := None;
    if reply.Complete? {
      path := Some(reply.path);
    }
  }

  /** How many exchanges a file of `size` bytes takes. */
  function Exchanges(size: nat): nat {
    2 + (size + CHUNK_SIZE - 1) / CHUNK_SIZE
  }

  /** Nothing stands in the way of the upload. */
  ghost predicate Quiet(s: Server, key: Key, name: string, content: Bytes, turns: seq<Turn>) {
    && AllCalm(turns, Exchanges(|content|))
    && CanStart(s, key, name, |content|, TurnAt(turns, 0).temp)
    && HasRoom(s.dir, TurnAt(turns, 0).temp, name)
  }

  /** A name is free beside the temporary file. */
  predicate HasRoom(dir: Directory, temp: string, name: string) {
    FirstFree(dir[temp := []], name, 0).Some?
  }

  lemma StillFree(dir: Directory, next: Directory, temp: string, name: string)
    requires HasRoom(dir, temp, name) && next.Keys == dir.Keys + {temp}
    ensures FirstFree(next, name, 0).Some?
  {
    FreeByKeys(next, dir[temp := []], name, 0);
  }

  ghost predicate AllCalm(turns: seq<Turn>, n: nat) {
    n <= |turns| && forall k | 0 <= k < n :: Calm(turns[k])
  }

  lemma CalmAt(turns: seq<Turn>, n: nat, k: nat)
    requires k < n
    ensures AllCalm(turns, n) ==> Calm(TurnAt(turns, k))
  {
  }

  lemma NotOursAt(turns: seq<Turn>, key: Key, k: nat)
    requires Script(turns, key)
    ensures NotOurs(TurnAt(turns, k).before, key) && NotOurs(TurnAt(turns, k).after, key)
  {
  }

  lemma {:induction false} FreeByKeys(a: Directory, b: Directory, name: string, from: nat)
    requires a.Keys == b.Keys
    ensures FirstFree(a, name, from) == FirstFree(b, name, from)
    decreases MAX_SUFFIX - from
  {
    hide Candidate;
    if from < MAX_SUFFIX {
      FreeByKeys(a, b, name, from + 1);
    }
  }

  /** The chunk loop; `k` is the next exchange. */
  method SendChunks(server: UploadServer, key: Key, ghost name: string, content: Bytes, turns: seq<Turn>)
    returns (ok: bool, k: nat, ghost trace: seq<Event>)
    requires server.Ok() && Script(turns, key) && Holds(server.State(), key, name, content, 0)
    modifies server
    ensures server.Ok() && SavesNothing(old(server.State()), server.State(), trace, key) && Plays(trace, turns, key)
    ensures ok ==> Holds(server.State(), key, name, content, |content|) && k == Exchanges(|content|) - 1
    ensures AllCalm(turns, Exchanges(|content|)) && key in old(server.uploads) ==>
              ok && key in server.uploads && server.dir.Keys == old(server.dir.Keys)
  {
    hide *;
    ChunksAreNotEmpty();
    NothingYet(server.State(), key);
    PlaysNothing(turns, key);
    var offset := 0;
    k, trace := 1, [];
    while offset < |content|
      invariant server.Ok() && SavesNothing(old(server.State()), server.State(), trace, key) && Plays(trace, turns, key)
      invariant 0 <= offset == (k - 1) * CHUNK_SIZE < |content| + CHUNK_SIZE
      invariant Holds(server.State(), key, name, content, if offset < |content| then offset else |content|)
      invariant AllCalm(turns, Exchanges(|content|)) && key in old(server.uploads) ==>
                  key in server.uploads && server.dir.Keys == old(server.dir.Keys)
    {
      var end := if offset + CHUNK_SIZE < |content| then offset + CHUNK_SIZE else |content|;
      NotOursAt(turns, key, k);
      ExchangesLeft(|content|, k);
      CalmAt(turns, Exchanges(|content|), k);
      ghost var was, more := server.State(), [];
      ok, more := ChunkExchange(server, key, name, content, offset, end, TurnAt(turns, k));
      StillNothing(old(server.State()), was, server.State(), trace, more, key);
      SeenPlays(key, Chunk(offset, GoDecode(GoEncode(content[offset..end]))), turns, k);
      PlaysOn(trace, more, turns, key);
      trace := trace + more;
      if !ok {
        return;
      }
      offset, k := offset + CHUNK_SIZE, k + 1;
    }
    ExchangesDone(|content|, k);
    ok := true;
  }

  lemma ChunksAreNotEmpty()
    ensures CHUNK_SIZE == 196_608
  {
  }

  lemma ExchangesLeft(size: nat, k: nat)
    requires 0 < k && (k - 1) * CHUNK_SIZE < size
    ensures k < Exchanges(size)
  {
  }

  lemma ExchangesDone(size: nat, k: nat)
    requires 0 < k && size <= (k - 1) * CHUNK_SIZE < size + CHUNK_SIZE
    ensures k == Exchanges(size) - 1
  {
  }

  /** The exchange that finishes a file of `size` bytes. */
  function LastTurn(turns: seq<Turn>, size: nat): Turn {
    TurnAt(turns, Exchanges(size) - 1)
  }

  /** The start and the chunks. */
  method SendFile(server: UploadServer, key: Key, name: string, content: Bytes, turns: seq<Turn>)
    returns (ok: bool, k: nat, ghost trace: seq<Event>)
    requires server.Ok() && Script(turns, key)
    modifies server
    ensures server.Ok() && SavesNothing(old(server.State()), server.State(), trace, key) && Plays(trace, turns, key)
    ensures ok ==> Holds(server.State(), key, name, content, |content|) && k == Exchanges(|content|) - 1
    ensures AllCalm(turns, Exchanges(|content|)) && CanStart(old(server.State()), key, name, |content|, TurnAt(turns, 0).temp) ==>
              ok && key in server.uploads && server.dir.Keys == old(server.dir.Keys) + {TurnAt(turns, 0).temp}
  {
    LastTurnIs(turns, |content|);
    hide *;
    NotOursAt(turns, key, 0);
    CalmAt(turns, Exchanges(|content|), 0);
    k, trace := 1, Seen(key, Start(name, |content|), TurnAt(turns, 0));
    SeenPlays(key, Start(name, |content|), turns, 0);
    ok := StartExchange(server, key, name, content, TurnAt(turns, 0));
    if ok {
      ghost var began, more := server.State(), [];
      ok, k, more := SendChunks(server, key, name, content, turns);
      StillNothing(old(server.State()), began, server.State(), trace, more, key);
      PlaysOn(trace, more, turns, key);
      trace := trace + more;
    }
  }

  /** The three kinds of exchange in order, until one is refused. */
  method Transfer(server: UploadServer, key: Key, name: string, content: Bytes, turns: seq<Turn>)
    returns (path: Option<string>, ghost trace: seq<Event>)
    requires server.Ok() && Script(turns, key)
    modifies server
    ensures server.Ok() && SavesFile(old(server.State()), server.State(), trace, key, content, path, LastTurn(turns, |content|).answered)
    ensures Plays(trace, turns, key)
    ensures old(Quiet(server.State(), key, name, content, turns)) ==> path.Some?
  {
    hide *;
    ghost var was := server.State();
    ghost var quiet := Quiet(was, key, name, content, turns);
    QuietParts(was, key, name, content, turns);
    LastTurnIs(turns, |content|);
    server.StateIs();
    var ok, k;
    ok, k, trace := SendFile(server, key, name, content, turns);
    SavingNothing(was, server.State(), trace, key, content, LastTurn(turns, |content|).answered);
    path := None;
    if ok {
      if quiet {
        StillFree(was.dir, server.dir, TurnAt(turns, 0).temp, name);
      }
      NotOursAt(turns, key, k);
      CalmAt(turns, Exchanges(|content|), k);
      ghost var sent := server.State();
      path := FinishExchange(server, key, name, content, TurnAt(turns, k));
      ThenSaves(was, sent, server.State(), trace, Seen(key, Finish, TurnAt(turns, k)), key, content, path, TurnAt(turns, k).answered);
      SeenPlays(key, Finish, turns, k);
      PlaysOn(trace, Seen(key, Finish, TurnAt(turns, k)), turns, key);
      trace := trace + Seen(key, Finish, TurnAt(turns, k));
    }
  }

  lemma LastTurnIs(turns: seq<Turn>, size: nat)
    ensures 2 <= Exchanges(size) && LastTurn(turns, size) == TurnAt(turns, Exchanges(size) - 1)
  {
  }

  lemma QuietParts(s: Server, key: Key, name: string, content: Bytes, turns: seq<Turn>)
    ensures 2 <= Exchanges(|content|)
    ensures Quiet(s, key, name, content, turns) ==>
              && AllCalm(turns, Exchanges(|content|))
              && CanStart(s, key, name, |content|, TurnAt(turns, 0).temp)
              && HasRoom(s.dir, TurnAt(turns, 0).temp, name)
  {
  }

  /**
    `uploadFile` under any interleaving with other uploads, any faults, lost requests and replies and
    closing channels. `trace` is everything the connector did meanwhile (the script's traffic and our own
    messages), and afterwards its directory holds exactly the files it kept before, the files completed in the trace, under new names, and the
    temporary files of the uploads still active. Of our own file that is: exactly the chosen bytes under
    the path it resolves with; nothing when it rejects, unless only the reply to its last request was
    lost, and then the whole file. A rejected upload that can still be cancelled is not active any more. And it
    does resolve when nothing stands in the way.
  */
  method UploadFile(server: UploadServer, key: Key, name: string, content: Bytes, turns: seq<Turn>, connected: bool)
    returns (outcome: Outcome, ghost trace: seq<Event>)
    requires server.Ok() && Script(turns, key) && key !in server.uploads
    modifies server
    ensures var path := if outcome.Resolved? then Some(outcome.path) else None;
            server.Ok() && SavesFile(old(server.State()), server.State(), trace, key, content, path, LastTurn(turns, |content|).answered)
    ensures Plays(trace, turns, key)
    ensures var saved := SavedBy(old(server.State()), trace, None);
            && Kept(server.State()) == Kept(old(server.State())) + saved && saved.Keys !! Kept(old(server.State())).Keys
            && SavedBy(old(server.State()), trace, Some(key)).Items <= saved.Items
    ensures server.dir.Keys == Kept(server.State()).Keys + Temps(server.uploads)
    ensures outcome.Rejected? && connected ==> key !in server.uploads
    ensures old(Quiet(server.State(), key, name, content, turns)) ==> outcome.Resolved?
  {
    ghost var was := server.State();
    QuietName(was, key, name, content, turns);
    NothingYet(was, key);
    SavingNothing(was, was, [], key, content, LastTurn(turns, |content|).answered);
    trace := [];
    outcome := Rejected;
    if name != "" && Utf8Length(name) <= MAX_UPLOAD_NAME_BYTES && '/' !in name && '\\' !in name && |content| <= MAX_UPLOAD_SIZE {
      hide *;
      var path;
      path, trace := Transfer(server, key, name, content, turns);
      if path.Some? {
        outcome := Resolved(path.value);
      } else if connected {
        PlaysCancel(trace, turns, key);
        CancelRuns(was, server.State(), trace, key, content, LastTurn(turns, |content|).answered);
        server.CleanupFileUpload(key);
        trace := trace + [Handled(key, Cancel, "", NoFault)];
      }
    }
    WholeRun(was, trace, key);
    hide *;
  }

  lemma PlaysCancel(events: seq<Event>, turns: seq<Turn>, key: Key)
    requires Plays(events, turns, key)
    ensures Plays(events + [Handled(key, Cancel, "", NoFault)], turns, key)
  {
    hide InScript;
  }

  /** The cancel as one more event: it completes nothing. */
  lemma CancelRuns(s: Server, n: Server, trace: seq<Event>, key: Key, content: Bytes, answered: bool)
    requires SavesFile(s, n, trace, key, content, None, answered)
    ensures SavesFile(s, Dropped(n, key), trace + [Handled(key, Cancel, "", NoFault)], key, content, None, answered)
    ensures key !in Dropped(n, key).uploads
  {
    hide RunEvents, SavedBy;
    RunConcat(s, trace, [Handled(key, Cancel, "", NoFault)]);
    SavedConcat(s, trace, [Handled(key, Cancel, "", NoFault)], Some(key));
    RunOne(RunEvents(s, trace), Handled(key, Cancel, "", NoFault), Some(key));
    JoinMaps(SavedBy(s, trace, Some(key)), map[], map[]);
  }

  lemma WholeRun(s: Server, trace: seq<Event>, key: Key)
    requires Valid(s)
    ensures var n, saved := RunEvents(s, trace), SavedBy(s, trace, None);
            && Kept(n) == Kept(s) + saved && saved.Keys !! Kept(s).Keys
            && n.dir.Keys == Kept(n).Keys + Temps(n.uploads)
            && SavedBy(s, trace, Some(key)).Items <= saved.Items
  {
    RunKeeps(s, trace);
    OwnIsSaved(s, trace, key);
    TempsAreThere(RunEvents(s, trace));
    hide RunEvents, SavedBy, Valid, Kept, Temps;
  }

  lemma TempsAreThere(s: Server)
    requires Valid(s)
    ensures s.dir.Keys == Kept(s).Keys + Temps(s.uploads)
  {
    forall k | k in s.uploads ensures s.uploads[k].temp in s.dir {
      assert UploadOk(s, s.uploads[k]);
    }
  }

  /** After a finish that was carried out there is nothing left to cancel: a lost reply leaves the file. */
  lemma FinishedCannotBeCancelled(s: Server, key: Key, temp: string, fault: Fault)
    requires Handle(s, key, Finish, temp, fault).1.Complete?
    ensures Dropped(Handle(s, key, Finish, temp, fault).0, key) == Handle(s, key, Finish, temp, fault).0
  {
    hide FirstFree, Candidate;
  }

  lemma QuietName(s: Server, key: Key, name: string, content: Bytes, turns: seq<Turn>)
    ensures Quiet(s, key, name, content, turns) ==>
              && name != "" && Utf8Length(name) <= MAX_UPLOAD_NAME_BYTES && '/' !in name && '\\' !in name
              && |content| <= MAX_UPLOAD_SIZE
  {
    hide FirstFree, Utf8Length;
  }
}
