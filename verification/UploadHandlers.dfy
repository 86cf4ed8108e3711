/** The upload handlers of the connector as an object over the directory, each tied to Uploads. */
module UploadHandlers {
  import opened Bytes
  import opened UploadPaths
  import opened Uploads
  import opened Wrappers

  ghost predicate Tracks(s: Server, accepted: map<Key, seq<Bytes>>) {
    accepted.Keys == s.uploads.Keys && forall k | k in s.uploads :: Contents(s, s.uploads[k]) == Flatten(accepted[k])
  }

  lemma TracksAt(s: Server, accepted: map<Key, seq<Bytes>>, key: Key)
    requires Tracks(s, accepted)
    ensures key in accepted <==> key in s.uploads
    ensures key in s.uploads ==> Contents(s, s.uploads[key]) == Flatten(accepted[key])
  {
  }

  /** Other uploads keep their contents; `key` gets `chunks`, or is gone. */
  lemma TracksOn(s: Server, n: Server, key: Key, accepted: map<Key, seq<Bytes>>, chunks: seq<Bytes>)
    requires Tracks(s, accepted) && n.uploads.Keys <= s.uploads.Keys + {key}
    requires forall k | k != key :: SameUpload(s, n, k)
    requires key in n.uploads ==> Contents(n, n.uploads[key]) == Flatten(chunks)
    ensures Tracks(n, if key in n.uploads then accepted[key := chunks] else accepted - {key})
  {
    hide Flatten, Contents;
    forall k | k in n.uploads && k != key ensures Contents(n, n.uploads[k]) == Flatten(accepted[k]) {
      assert SameUpload(s, n, k);
    }
    forall k | k in s.uploads && k != key ensures k in n.uploads {
      assert SameUpload(s, n, k);
    }
  }

  class UploadServer {
    var uploads: map<Key, Upload>
    var dir: Directory

    /** The chunks each active upload has accepted. */
    ghost var accepted: map<Key, seq<Bytes>>

    function State(): Server
      reads this
    {
      Server(uploads, dir)
    }

    lemma StateIs()
      ensures State().uploads == uploads && State().dir == dir
    {
    }

    /** Every active temporary file is the concatenation of its accepted chunks. */
    ghost predicate Ok()
      reads this
    {
      Valid(State()) && Tracks(State(), accepted)
    }

    constructor (files: Directory)
      ensures Ok() && State() == Server(map[], files)
    {
      uploads, dir, accepted := map[], files, map[];
    }

    method StartFileUpload(key: Key, name: string, size: int, temp: string, fault: Fault) returns (reply: Reply)
      requires Ok()
      modifies this
      ensures Ok() && (State(), reply) == StartUpload(old(State()), key, name, size, temp, fault)
      ensures accepted == if reply.Ready? then old(accepted)[key := []] else old(accepted)
    {
      hide Valid, Temps, Kept, ValidUploadName, Tracks, Contents, SameUpload;
      StartKeeps(State(), key, name, size, temp, fault);
      if !ValidUploadName(name) || size < 0 || size > MAX_UPLOAD_SIZE {
        return Failed;
      }
      if key in uploads || |OnChannel(uploads, key.channel)| >= MAX_ACTIVE {
        return Failed;
      }
      if fault == MkdirFails || fault == CreateTempFails || temp in dir {
        return Failed;
      }
      dir := dir[temp := []];
      uploads := uploads[key := Upload(temp, name, size, 0)];
      accepted := accepted[key := []];
      reply := Ready(size);
      TracksOn(old(State()), State(), key, old(accepted), []);
    }

    method WriteFileUpload(key: Key, offset: int, data: Option<Bytes>, fault: Fault) returns (reply: Reply)
      requires Ok()
      modifies this
      ensures Ok() && (State(), reply) == WriteUpload(old(State()), key, offset, data, fault)
      ensures reply.Progress? ==>
                key in old(accepted) && data.Some? && accepted == old(accepted)[key := old(accepted)[key] + [data.value]]
      ensures !reply.Progress? ==> accepted == old(accepted) - {key}
    {
      hide Valid, Temps, Kept, Flatten, Tracks, Contents, SameUpload, Dropped;
      TracksAt(State(), accepted, key);
      WriteKeeps(State(), key, offset, data, fault);
      if key !in uploads {
        return Failed;
      }
      var upload := uploads[key];
      if !ValidChunk(upload, offset, data) || fault == WriteFails {
        CleanupFileUpload(key);
        return Failed;
      }
      FlattenPush(accepted[key], data.value);
      dir := dir[upload.temp := Contents(State(), upload) + data.value];
      var received := upload.received + |data.value|;
      uploads := uploads[key := upload.(received := received)];
      accepted := accepted[key := accepted[key] + [data.value]];
      reply := Progress(received, upload.size);
      TracksOn(old(State()), State(), key, old(accepted), accepted[key]);
    }

    /** Off the list, and its temporary file out of the directory. */
    method CleanupFileUpload(key: Key)
      requires Ok()
      modifies this
      ensures Ok() && State() == Dropped(old(State()), key) && accepted == old(accepted) - {key}
    {
      hide Valid, Temps, Kept, Flatten, Tracks, Contents, SameUpload;
      TracksAt(State(), accepted, key);
      DroppedKeeps(State(), key);
      if key in uploads {
        dir := dir - {uploads[key].temp};
        uploads := uploads - {key};
        accepted := accepted - {key};
      }
      TracksOn(old(State()), State(), key, old(accepted), []);
    }

    /** Links the file under the first free name; existing files make the loop go on. */
    method ReserveUploadPath(temp: string, name: string, fault: Fault) returns (path: Option<string>)
      modifies this`dir
      ensures var free := FirstFree(old(dir), name, 0);
              if fault == LinkFails || fault == RemoveFails || free.None? then path.None? && dir == old(dir)
              else
                && path == Some(Candidate(name, free.value))
                && dir == old(dir)[path.value := if temp in old(dir) then old(dir)[temp] else []] - {temp}
    {
      hide Candidate;
      var suffix := 0;
      while suffix < MAX_SUFFIX
        invariant suffix <= MAX_SUFFIX && dir == old(dir)
        invariant FirstFree(dir, name, 0) == FirstFree(dir, name, suffix)
      {
        var candidate := Candidate(name, suffix);
        if fault == LinkFails {
          return None;
        }
        if candidate !in dir {
          var data := if temp in dir then dir[temp] else [];
          dir := dir[candidate := data];
          if fault == RemoveFails {
            dir := dir - {candidate};
            return None;
          }
          dir := dir - {temp};
          return Some(candidate);
        }
        suffix := suffix + 1;
      }
      path := None;
    }

    method FinishFileUpload(key: Key, fault: Fault) returns (reply: Reply)
      requires Ok()
      modifies this
      ensures Ok() && (State(), reply) == FinishUpload(old(State()), key, fault)
      ensures accepted == old(accepted) - {key}
    {
      hide Valid, Temps, Kept, Flatten, FirstFree, Candidate, LeastFree, Tracks, SameUpload;
      TracksAt(State(), accepted, key);
      FinishKeeps(State(), key, fault);
      TracksAt(State(), accepted, key);
      DroppedKeeps(State(), key);
      if key !in uploads {
        return Failed;
      }
      var upload := uploads[key];
      if upload.received != upload.size || fault == SyncFails || fault == CloseFails {
        CleanupFileUpload(key);
        return Failed;
      }
      var path := ReserveUploadPath(upload.temp, upload.name, fault);
      if path.None? {
        CleanupFileUpload(key);
        return Failed;
      }
      uploads := uploads - {key};
      accepted := accepted - {key};
      reply := Complete(upload.received, upload.size, path.value);
      TracksOn(old(State()), State(), key, old(accepted), []);
    }

    method HandleMessage(key: Key, m: Message, temp: string, fault: Fault) returns (reply: Reply)
      requires Ok()
      modifies this
      ensures Ok() && (State(), reply) == Handle(old(State()), key, m, temp, fault)
    {
      hide Valid, Temps, Kept, Flatten, FirstFree, Candidate, Dropped, StartUpload, WriteUpload, FinishUpload, Ok;
      match m {
        case Start(name, size) => reply := StartFileUpload(key, name, size, temp, fault);
        case Chunk(offset, data) => reply := WriteFileUpload(key, offset, data, fault);
        case Finish => reply := FinishFileUpload(key, fault);
        case Cancel =>
          CleanupFileUpload(key);
          reply := Silent;
      }
    }

    /** `closeChannel`: one cleanup after the other, in whatever order the map yields them. */
    method CloseUploads(channel: string)
      requires Ok()
      modifies this
      ensures Ok() && State() == CloseChannel(old(State()), channel)
    {
      var pending := OnChannel(uploads, channel);
      ghost var was := State();
      while pending != {}
        invariant Ok() && pending == OnChannel(uploads, channel)
        invariant CloseChannel(State(), channel) == CloseChannel(was, channel)
      {
        var key :| key in pending;
        CloseAfterDrop(State(), key);
        CleanupFileUpload(key);
        pending := pending - {key};
      }
      CloseNothing(State(), channel);
    }
  }

  lemma CloseAfterDrop(s: Server, key: Key)
    requires key in s.uploads
    ensures CloseChannel(Dropped(s, key), key.channel) == CloseChannel(s, key.channel)
    ensures OnChannel(Dropped(s, key).uploads, key.channel) == OnChannel(s.uploads, key.channel) - {key}
  {
    var n := Dropped(s, key);
    var gone := set k | k in s.uploads && k.channel == key.channel :: s.uploads[k].temp;
    var later := set k | k in n.uploads && k.channel == key.channel :: n.uploads[k].temp;
    forall name | name in gone ensures name in later || name == s.uploads[key].temp {
      var k :| k in s.uploads && k.channel == key.channel && s.uploads[k].temp == name;
      assert k != key ==> k in n.uploads && n.uploads[k].temp == name;
    }
    assert gone == later + {s.uploads[key].temp};
    assert s.dir - gone == n.dir - later;
  }

  lemma CloseNothing(s: Server, channel: string)
    requires OnChannel(s.uploads, channel) == {}
    ensures CloseChannel(s, channel) == s
  {
    assert forall k | k in s.uploads && k.channel == channel :: k in OnChannel(s.uploads, channel);
  }
}
