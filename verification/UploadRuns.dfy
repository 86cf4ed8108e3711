/** Runs of messages and closing channels, and the files they complete. */
module UploadRuns {
  import opened UploadPaths
  import opened Uploads
  import opened Wrappers

  /** What happens at the connector: it handles a message, or a channel goes away. */
  datatype Event = Handled(key: Key, message: Message, temp: string, fault: Fault) | Closes(channel: string)

  function After(s: Server, e: Event): Server {
    match e
    case Handled(key, message, temp, fault) => Handle(s, key, message, temp, fault).0
    case Closes(channel) => CloseChannel(s, channel)
  }

  function RunEvents(s: Server, events: seq<Event>): Server {
    if events == [] then s else After(RunEvents(s, events[..|events| - 1]), events[|events| - 1])
  }

  /** The file that one event completes, if it does. */
  function SavedAt(s: Server, e: Event): Directory {
    if e.Handled? && e.key in s.uploads && Handle(s, e.key, e.message, e.temp, e.fault).1.Complete? then
      map[Handle(s, e.key, e.message, e.temp, e.fault).1.path := Contents(s, s.uploads[e.key])]
    else map[]
  }

  /** The files completed by the events of one upload, or of all. */
  function SavedBy(s: Server, events: seq<Event>, owner: Option<Key>): Directory {
    if events == [] then map[]
    else
      var before, last := events[..|events| - 1], events[|events| - 1];
      SavedBy(s, before, owner) +
      if owner.None? || (last.Handled? && last.key == owner.value) then SavedAt(RunEvents(s, before), last) else map[]
  }

  lemma {:induction false} RunConcat(s: Server, a: seq<Event>, b: seq<Event>)
    ensures RunEvents(s, a + b) == RunEvents(RunEvents(s, a), b)
  {
    hide After;
    if b == [] {
      assert a + b == a;
    } else {
      RunConcat(s, a, b[..|b| - 1]);
      assert (a + b)[..|a + b| - 1] == a + b[..|b| - 1];
    }
  }

  lemma JoinMaps(a: Directory, b: Directory, c: Directory)
    ensures (a + b) + c == a + (b + c)
    ensures map[] + a == a && a + map[] == a
  {
  }

  lemma SavedPush(s: Server, events: seq<Event>, e: Event, owner: Option<Key>)
    ensures SavedBy(s, events + [e], owner) ==
            SavedBy(s, events, owner) +
            if owner.None? || (e.Handled? && e.key == owner.value) then SavedAt(RunEvents(s, events), e) else map[]
  {
    hide SavedAt, RunEvents;
    assert (events + [e])[..|events|] == events;
  }

  lemma {:induction false} SavedConcat(s: Server, a: seq<Event>, b: seq<Event>, owner: Option<Key>)
    ensures SavedBy(s, a + b, owner) == SavedBy(s, a, owner) + SavedBy(RunEvents(s, a), b, owner)
  {
    if b == [] {
      assert a + b == a;
      JoinMaps(SavedBy(s, a, owner), map[], map[]);
    } else {
      var before, last := b[..|b| - 1], b[|b| - 1];
      assert a + b == (a + before) + [last] && b == before + [last];
      hide *;
      SavedConcat(s, a, before, owner);
      RunConcat(s, a, before);
      SavedPush(s, a + before, last, owner);
      SavedPush(RunEvents(s, a), before, last, owner);
      JoinMaps(SavedBy(s, a, owner), SavedBy(RunEvents(s, a), before, owner),
               if owner.None? || (last.Handled? && last.key == owner.value) then SavedAt(RunEvents(s, a + before), last) else map[]);
    }
  }

  lemma RunOne(s: Server, e: Event, owner: Option<Key>)
    ensures RunEvents(s, [e]) == After(s, e)
    ensures SavedBy(s, [e], owner) == if owner.None? || (e.Handled? && e.key == owner.value) then SavedAt(s, e) else map[]
  {
    hide After, SavedAt;
    assert [e][..0] == [];
    assert RunEvents(s, []) == s;
  }

  // ---- the directory over a run ----------------------------------------------------------------

  lemma EventKeeps(s: Server, e: Event)
    requires Valid(s)
    ensures Valid(After(s, e)) && Kept(After(s, e)) == Kept(s) + SavedAt(s, e) && SavedAt(s, e).Keys !! Kept(s).Keys
  {
    hide Valid, Kept, SameUpload, StartUpload, WriteUpload, FinishUpload, Candidate, LeastFree, CloseChannel;
    match e
    case Handled(key, m, temp, fault) =>
      match m {
        case Start(name, size) =>
          StartKeeps(s, key, name, size, temp, fault);
          StartNotComplete(s, key, name, size, temp, fault);
        case Chunk(offset, data) => WriteKeeps(s, key, offset, data, fault);
        case Finish =>
          FinishKeeps(s, key, fault);
          KeptIsInDirectory(s);
        case Cancel => DroppedKeeps(s, key);
      }
    case Closes(channel) => CloseKeeps(s, channel);
  }

  lemma StartNotComplete(s: Server, key: Key, name: string, size: int, temp: string, fault: Fault)
    ensures !StartUpload(s, key, name, size, temp, fault).1.Complete?
  {
    hide ValidUploadName;
  }

  /**
    Over any run of messages, faults and closing channels: what is kept is what was kept before and the
    files completed meanwhile, under names that were free.
  */
  lemma {:induction false} RunKeeps(s: Server, events: seq<Event>)
    requires Valid(s)
    ensures Valid(RunEvents(s, events))
    ensures Kept(RunEvents(s, events)) == Kept(s) + SavedBy(s, events, None)
    ensures SavedBy(s, events, None).Keys !! Kept(s).Keys
  {
    hide Valid, Kept, After, SavedAt;
    if events != [] {
      RunKeeps(s, events[..|events| - 1]);
      EventKeeps(RunEvents(s, events[..|events| - 1]), events[|events| - 1]);
    }
  }

  /** What one upload has completed is part of what all have. */
  lemma {:induction false} OwnIsSaved(s: Server, events: seq<Event>, key: Key)
    requires Valid(s)
    ensures forall path | path in SavedBy(s, events, Some(key)) ::
              path in SavedBy(s, events, None) && SavedBy(s, events, None)[path] == SavedBy(s, events, Some(key))[path]
  {
    hide Valid, Kept, After, SavedAt;
    if events != [] {
      var before := events[..|events| - 1];
      OwnIsSaved(s, before, key);
      RunKeeps(s, before);
      EventKeeps(RunEvents(s, before), events[|events| - 1]);
    }
  }

  // ---- nothing is written elsewhere ------------------------------------------------------------

  ghost predicate NamesOk(uploads: map<Key, Upload>) {
    forall k | k in uploads :: ValidUploadName(uploads[k].name)
  }

  lemma NamesAfter(s: Server, e: Event)
    requires NamesOk(s.uploads)
    ensures NamesOk(After(s, e).uploads)
  {
    hide ValidUploadName, FirstFree, Candidate, ValidChunk, OnChannel, Contents;
  }

  lemma SavedName(s: Server, e: Event)
    requires NamesOk(s.uploads)
    ensures forall path | path in SavedAt(s, e) :: PlainName(path)
  {
    hide ValidUploadName, FirstFree, Candidate, ValidChunk, OnChannel, Contents, PlainName;
    if e.Handled? && e.key in s.uploads && e.message.Finish? {
      var u := s.uploads[e.key];
      if FirstFree(s.dir, u.name, 0).Some? {
        CandidateIsPlain(u.name, FirstFree(s.dir, u.name, 0).value);
      }
    }
  }

  /** Over any run every completed file is in the upload directory itself, whatever names were asked for. */
  lemma {:induction false} SavedNamesArePlain(s: Server, events: seq<Event>)
    requires NamesOk(s.uploads)
    ensures NamesOk(RunEvents(s, events).uploads)
    ensures forall path | path in SavedBy(s, events, None) :: PlainName(path)
  {
    hide NamesOk, After, SavedAt, PlainName;
    if events != [] {
      var before := events[..|events| - 1];
      SavedNamesArePlain(s, before);
      NamesAfter(RunEvents(s, before), events[|events| - 1]);
      SavedName(RunEvents(s, before), events[|events| - 1]);
    }
  }
}
