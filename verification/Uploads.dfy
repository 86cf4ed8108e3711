/**
  File uploads on the connector (`startFileUpload`, `writeFileUpload`, `finishFileUpload`,
  `cancelFileUpload` and `closeChannel` in cloud/connector.go): what one message does to the active
  uploads and to the upload directory.
*/
module Uploads {
  import opened Bytes
  import opened Collections
  import opened UploadPaths
  import opened Wrappers

  const MAX_UPLOAD_SIZE := 100 * 0x10_0000
  const MAX_UPLOAD_CHUNK := 192 * 0x400
  const MAX_ACTIVE := 2

  /** An upload belongs to one encrypted channel; its id is the browser's. */
  datatype Key = Key(channel: string, id: string)

  datatype Upload = Upload(temp: string, name: string, size: int, received: int)

  datatype Server = Server(uploads: map<Key, Upload>, dir: Directory)

  datatype Message = Start(name: string, size: int) | Chunk(offset: int, data: Option<Bytes>) | Finish | Cancel

  datatype Reply = Ready(total: int) | Progress(received: int, total: int) | Complete(received: int, total: int, path: string) | Failed | Silent

  /** What the operating system refuses while a message is handled. */
  datatype Fault = NoFault | MkdirFails | CreateTempFails | WriteFails | SyncFails | CloseFails | LinkFails | RemoveFails

  function OnChannel(uploads: map<Key, Upload>, channel: string): set<Key> {
    set k | k in uploads && k.channel == channel
  }

  function Contents(s: Server, u: Upload): Bytes {
    if u.temp in s.dir then s.dir[u.temp] else []
  }

  function Temps(uploads: map<Key, Upload>): set<string> {
    set k | k in uploads :: uploads[k].temp
  }

  /** Everything in the directory that is not the temporary file of an active upload. */
  function Kept(s: Server): Directory {
    s.dir - Temps(s.uploads)
  }

  /** `removeFileUpload` and `cleanupFileUpload` */
  function Dropped(s: Server, key: Key): Server {
    if key in s.uploads then Server(s.uploads - {key}, s.dir - {s.uploads[key].temp}) else s
  }

  function StartUpload(s: Server, key: Key, name: string, size: int, temp: string, fault: Fault): (Server, Reply) {
    if !ValidUploadName(name) || size < 0 || size > MAX_UPLOAD_SIZE then (s, Failed)
    else if key in s.uploads || |OnChannel(s.uploads, key.channel)| >= MAX_ACTIVE then (s, Failed)
    else if fault == MkdirFails || fault == CreateTempFails || temp in s.dir then (s, Failed)
    else (Server(s.uploads[key := Upload(temp, name, size, 0)], s.dir[temp := []]), Ready(size))
  }

  predicate ValidChunk(u: Upload, offset: int, data: Option<Bytes>) {
    data.Some? && |data.value| <= MAX_UPLOAD_CHUNK && offset == u.received && u.received + |data.value| <= u.size
  }

  function WriteUpload(s: Server, key: Key, offset: int, data: Option<Bytes>, fault: Fault): (Server, Reply) {
    if key !in s.uploads then (s, Failed)
    else
      var u := s.uploads[key];
      if !ValidChunk(u, offset, data) || fault == WriteFails then (Dropped(s, key), Failed)
      else
        var received := u.received + |data.value|;
        (Server(s.uploads[key := u.(received := received)], s.dir[u.temp := Contents(s, u) + data.value]),
         Progress(received, u.size))
  }

  function FinishUpload(s: Server, key: Key, fault: Fault): (Server, Reply) {
    if key !in s.uploads then (s, Failed)
    else
      var u := s.uploads[key];
      var free := FirstFree(s.dir, u.name, 0);
      if u.received != u.size || fault in {SyncFails, CloseFails, LinkFails, RemoveFails} || free.None? then
        (Dropped(s, key), Failed)
      else
        var path := Candidate(u.name, free.value);
        (Server(s.uploads - {key}, s.dir[path := Contents(s, u)] - {u.temp}), Complete(u.received, u.size, path))
  }

  function Handle(s: Server, key: Key, m: Message, temp: string, fault: Fault): (Server, Reply) {
    match m
    case Start(name, size) => StartUpload(s, key, name, size, temp, fault)
    case Chunk(offset, data) => WriteUpload(s, key, offset, data, fault)
    case Finish => FinishUpload(s, key, fault)
    case Cancel => (Dropped(s, key), Silent)
  }

  /** The channel goes away and takes its uploads with it. */
  function CloseChannel(s: Server, channel: string): Server {
    Server(map k | k in s.uploads && k.channel != channel :: s.uploads[k],
           s.dir - (set k | k in s.uploads && k.channel == channel :: s.uploads[k].temp))
  }

  // ---- invariant -------------------------------------------------------------------------------

  ghost predicate UploadOk(s: Server, u: Upload) {
    u.temp in s.dir && u.received == |s.dir[u.temp]| <= u.size <= MAX_UPLOAD_SIZE
  }

  ghost predicate FewActive(uploads: map<Key, Upload>) {
    forall channel: string :: |OnChannel(uploads, channel)| <= MAX_ACTIVE
  }

  ghost predicate OwnTemps(uploads: map<Key, Upload>) {
    forall k, l | k in uploads && l in uploads && uploads[k].temp == uploads[l].temp :: k == l
  }

  ghost predicate UploadsOk(s: Server) {
    forall k | k in s.uploads :: UploadOk(s, s.uploads[k])
  }

  ghost predicate Valid(s: Server) {
    UploadsOk(s) && OwnTemps(s.uploads) && FewActive(s.uploads)
  }

  lemma FewStays(a: map<Key, Upload>, b: map<Key, Upload>)
    requires FewActive(a) && b.Keys <= a.Keys
    ensures FewActive(b)
  {
    forall channel: string ensures |OnChannel(b, channel)| <= MAX_ACTIVE {
      SubsetIsSmaller(OnChannel(b, channel), OnChannel(a, channel));
    }
  }

  /** What survives of `s`: nothing outside the temporary files is lost or overwritten. */
  ghost predicate Preserves(s: Server, n: Server) {
    forall name | name in Kept(s) :: name in Kept(n) && Kept(n)[name] == Kept(s)[name]
  }

  /** The upload under `key` is untouched, contents included. */
  ghost predicate SameUpload(s: Server, n: Server, key: Key) {
    key in s.uploads ==> key in n.uploads && n.uploads[key] == s.uploads[key] && Contents(n, n.uploads[key]) == Contents(s, s.uploads[key])
  }

  lemma TempsGrow(a: map<Key, Upload>, b: map<Key, Upload>)
    requires forall k | k in a :: k in b && b[k].temp == a[k].temp
    ensures Temps(a) <= Temps(b)
  {
    forall name | name in Temps(a) ensures name in Temps(b) {
      var k :| k in a && a[k].temp == name;
      assert b[k].temp == name;
    }
  }

  lemma KeptSame(s: Server, n: Server)
    requires n.dir.Keys - Temps(n.uploads) == s.dir.Keys - Temps(s.uploads)
    requires forall name | name in n.dir && name !in Temps(n.uploads) :: name in s.dir && n.dir[name] == s.dir[name]
    ensures Kept(n) == Kept(s)
  {
    assert forall name :: name in Kept(n) <==> name in n.dir.Keys - Temps(n.uploads);
    assert forall name :: name in Kept(s) <==> name in s.dir.Keys - Temps(s.uploads);
  }

  /** The temporary files of the uploads `gone` are theirs alone. */
  lemma TempsWithout(s: Server, n: map<Key, Upload>, gone: set<string>)
    requires OwnTemps(s.uploads)
    requires forall k | k in n :: k in s.uploads && n[k] == s.uploads[k]
    requires gone == set k | k in s.uploads && k !in n :: s.uploads[k].temp
    ensures Temps(n) == Temps(s.uploads) - gone
  {
    TempsGrow(n, s.uploads);
    forall name | name in Temps(s.uploads) && name !in gone ensures name in Temps(n) {
      var k :| k in s.uploads && s.uploads[k].temp == name;
      assert n[k].temp == name;
    }
  }

  // ---- each operation --------------------------------------------------------------------------

  lemma DroppedKeeps(s: Server, key: Key)
    requires Valid(s)
    ensures Valid(Dropped(s, key)) && Kept(Dropped(s, key)) == Kept(s) && key !in Dropped(s, key).uploads
    ensures forall k | k != key :: SameUpload(s, Dropped(s, key), k)
  {
    hide Valid, Kept, SameUpload;
    DroppedValid(s, key);
    DroppedKept(s, key);
  }

  lemma DroppedKept(s: Server, key: Key)
    requires Valid(s)
    ensures Kept(Dropped(s, key)) == Kept(s)
    ensures forall k | k != key :: SameUpload(s, Dropped(s, key), k)
  {
    hide FewActive, UploadsOk;
    var n := Dropped(s, key);
    if key in s.uploads {
      TempsWithout(s, n.uploads, {s.uploads[key].temp});
      KeptSame(s, n);
    }
  }

  lemma DroppedValid(s: Server, key: Key)
    requires Valid(s)
    ensures Valid(Dropped(s, key)) && key !in Dropped(s, key).uploads
  {
    var n := Dropped(s, key);
    FewStays(s.uploads, n.uploads);
    hide FewActive;
    if key in s.uploads {
      assert forall k | k in n.uploads :: UploadOk(s, s.uploads[k]) && s.uploads[k].temp != s.uploads[key].temp;
    }
  }

  /** A new empty upload, exactly when the request, its channel and the file system allow one; otherwise nothing changes. */
  lemma StartKeeps(s: Server, key: Key, name: string, size: int, temp: string, fault: Fault)
    requires Valid(s)
    ensures var (n, reply) := StartUpload(s, key, name, size, temp, fault);
            && Valid(n) && Kept(n) == Kept(s)
            && (reply.Ready? ==> reply.total == size && n.uploads == s.uploads[key := Upload(temp, name, size, 0)] && Contents(n, n.uploads[key]) == [])
            && (!reply.Ready? ==> reply == Failed && n == s)
            && (reply.Ready? <==>
                  && ValidUploadName(name) && 0 <= size <= 104_857_600
                  && key !in s.uploads && |OnChannel(s.uploads, key.channel)| < 2
                  && fault !in {MkdirFails, CreateTempFails} && temp !in s.dir)
            && forall k | k != key :: SameUpload(s, n, k)
  {
    var (n, reply) := StartUpload(s, key, name, size, temp, fault);
    if reply.Ready? {
      hide ValidUploadName, Valid, Kept;
      StartedKept(s, key, Upload(temp, name, size, 0));
      StartedValid(s, key, Upload(temp, name, size, 0));
    }
  }

  function Started(s: Server, key: Key, u: Upload): Server {
    Server(s.uploads[key := u], s.dir[u.temp := []])
  }

  lemma StartedKept(s: Server, key: Key, u: Upload)
    requires Valid(s) && key !in s.uploads && u.temp !in s.dir
    ensures Kept(Started(s, key, u)) == Kept(s)
    ensures forall k | k != key :: SameUpload(s, Started(s, key, u), k)
  {
    var n := Started(s, key, u);
    TempsGrow(s.uploads, n.uploads);
    assert n.uploads[key].temp == u.temp;
    assert Temps(n.uploads) == Temps(s.uploads) + {u.temp};
    assert u.temp !in Temps(s.uploads);
    KeptSame(s, n);
    hide Kept;
  }

  lemma StartedFew(uploads: map<Key, Upload>, key: Key, u: Upload)
    requires FewActive(uploads) && key !in uploads && |OnChannel(uploads, key.channel)| < MAX_ACTIVE
    ensures FewActive(uploads[key := u])
  {
    var next := uploads[key := u];
    forall channel: string ensures |OnChannel(next, channel)| <= MAX_ACTIVE {
      if channel == key.channel {
        assert OnChannel(next, channel) == OnChannel(uploads, channel) + {key};
      } else {
        assert OnChannel(next, channel) == OnChannel(uploads, channel);
      }
    }
  }

  lemma StartedValid(s: Server, key: Key, u: Upload)
    requires Valid(s) && key !in s.uploads && u.temp !in s.dir && |OnChannel(s.uploads, key.channel)| < MAX_ACTIVE
    requires u.received == 0 <= u.size <= MAX_UPLOAD_SIZE
    ensures Valid(Started(s, key, u))
  {
    StartedFew(s.uploads, key, u);
    hide FewActive;
    var n := Started(s, key, u);
    assert forall k | k in s.uploads :: UploadOk(s, s.uploads[k]) && s.uploads[k].temp != u.temp;
    assert UploadOk(n, u);
  }

  /** A chunk that comes at its place, is small enough and can be written is appended and counted; any other takes the upload and its file away. */
  lemma WriteKeeps(s: Server, key: Key, offset: int, data: Option<Bytes>, fault: Fault)
    requires Valid(s)
    ensures var (n, reply) := WriteUpload(s, key, offset, data, fault);
            && Valid(n) && Kept(n) == Kept(s)
            && (reply.Progress? ==>
                  && reply.received == s.uploads[key].received + |data.value| && reply.total == s.uploads[key].size
                  && n.uploads == s.uploads[key := s.uploads[key].(received := offset + |data.value|)]
                  && Contents(n, n.uploads[key]) == Contents(s, s.uploads[key]) + data.value)
            && (!reply.Progress? ==> reply == Failed && key !in n.uploads)
            && (reply.Progress? <==>
                  && key in s.uploads && data.Some? && |data.value| <= 196_608 && fault != WriteFails
                  && offset == s.uploads[key].received && offset + |data.value| <= s.uploads[key].size)
            && forall k | k != key :: SameUpload(s, n, k)
  {
    var (n, reply) := WriteUpload(s, key, offset, data, fault);
    if reply.Progress? {
      hide Temps, Kept, Valid;
      WrittenKept(s, key, data.value);
      WrittenValid(s, key, data.value);
    } else if key in s.uploads {
      hide Temps, Kept, Valid, ValidChunk, SameUpload;
      DroppedKeeps(s, key);
    }
  }

  function Written(s: Server, key: Key, data: Bytes): Server
    requires key in s.uploads
  {
    var u := s.uploads[key];
    Server(s.uploads[key := u.(received := u.received + |data|)], s.dir[u.temp := Contents(s, u) + data])
  }

  lemma WrittenKept(s: Server, key: Key, data: Bytes)
    requires Valid(s) && key in s.uploads
    ensures Kept(Written(s, key, data)) == Kept(s)
    ensures forall k | k != key :: SameUpload(s, Written(s, key, data), k)
  {
    hide FewActive;
    var n := Written(s, key, data);
    TempsGrow(s.uploads, n.uploads);
    TempsGrow(n.uploads, s.uploads);
    assert s.uploads[key].temp in Temps(s.uploads);
    KeptSame(s, n);
  }

  lemma WrittenValid(s: Server, key: Key, data: Bytes)
    requires Valid(s) && key in s.uploads && s.uploads[key].received + |data| <= s.uploads[key].size
    ensures Valid(Written(s, key, data))
  {
    var n := Written(s, key, data);
    FewStays(s.uploads, n.uploads);
    hide FewActive;
    assert forall k | k in s.uploads :: UploadOk(s, s.uploads[k]);
    assert UploadOk(n, n.uploads[key]);
  }

  /**
    The file appears under the least free name, complete, and nothing that was there is touched; and it
    does exactly when all its bytes are there, nothing fails and some name is free.
  */
  lemma FinishKeeps(s: Server, key: Key, fault: Fault)
    requires Valid(s)
    ensures var (n, reply) := FinishUpload(s, key, fault);
            && Valid(n) && key !in n.uploads
            && (reply.Complete? ==>
                  && reply.path !in s.dir && reply.received == reply.total == s.uploads[key].size
                  && (exists k: nat :: reply.path == Candidate(s.uploads[key].name, k) && LeastFree(s.dir, s.uploads[key].name, 0, k))
                  && |Contents(s, s.uploads[key])| == s.uploads[key].size
                  && Kept(n) == Kept(s)[reply.path := Contents(s, s.uploads[key])])
            && (!reply.Complete? ==> reply == Failed && Kept(n) == Kept(s))
            && (reply.Complete? <==>
                  && key in s.uploads && |Contents(s, s.uploads[key])| == s.uploads[key].size
                  && fault !in {SyncFails, CloseFails, LinkFails, RemoveFails}
                  && exists k: nat :: k < 10_000 && Candidate(s.uploads[key].name, k) !in s.dir)
            && forall k | k != key :: SameUpload(s, n, k)
  {
    var (n, reply) := FinishUpload(s, key, fault);
    hide Valid, Temps, Kept, SameUpload, Candidate, FirstFree, LeastFree;
    DroppedKeeps(s, key);
    CompleteIff(s, key, fault);
    if reply.Complete? {
      var u := s.uploads[key];
      FirstFreeIsLeast(s.dir, u.name, 0);
      FreeName(s.dir, u.name);
      SavedKeeps(s, key, reply.path);
    }
  }

  lemma CompleteIff(s: Server, key: Key, fault: Fault)
    requires Valid(s)
    ensures FinishUpload(s, key, fault).1.Complete? <==>
            && key in s.uploads && |Contents(s, s.uploads[key])| == s.uploads[key].size
            && fault !in {SyncFails, CloseFails, LinkFails, RemoveFails}
            && exists k: nat :: k < 10_000 && Candidate(s.uploads[key].name, k) !in s.dir
  {
    hide Candidate, FewActive, OwnTemps, FirstFree, LeastFree;
    if key in s.uploads {
      assert UploadOk(s, s.uploads[key]);
      FirstFreeIsLeast(s.dir, s.uploads[key].name, 0);
    }
  }

  lemma FreeName(dir: Directory, name: string)
    requires FirstFree(dir, name, 0).Some?
    ensures Candidate(name, FirstFree(dir, name, 0).value) !in dir
  {
    FirstFreeIsLeast(dir, name, 0);
    hide Candidate;
    assert LeastFree(dir, name, 0, FirstFree(dir, name, 0).value);
  }

  function Saved(s: Server, key: Key, path: string): Server
    requires key in s.uploads
  {
    var u := s.uploads[key];
    Server(s.uploads - {key}, s.dir[path := Contents(s, u)] - {u.temp})
  }

  lemma SavedKeeps(s: Server, key: Key, path: string)
    requires Valid(s) && key in s.uploads && path !in s.dir
    ensures Valid(Saved(s, key, path)) && Kept(Saved(s, key, path)) == Kept(s)[path := Contents(s, s.uploads[key])]
    ensures |Contents(s, s.uploads[key])| == s.uploads[key].received
    ensures forall k | k != key :: SameUpload(s, Saved(s, key, path), k)
  {
    var d, n := Dropped(s, key), Saved(s, key, path);
    DroppedKeeps(s, key);
    assert UploadOk(s, s.uploads[key]);
    assert n.uploads == d.uploads && n.dir == d.dir[path := Contents(s, s.uploads[key])];
    assert forall k | k in d.uploads :: UploadOk(d, d.uploads[k]) && d.uploads[k].temp != path;
    hide FewActive, OwnTemps;
    assert path !in Temps(d.uploads);
  }

  /** Closing a channel takes its uploads and their temporary files, and nothing else. */
  lemma CloseKeeps(s: Server, channel: string)
    requires Valid(s)
    ensures Valid(CloseChannel(s, channel)) && Kept(CloseChannel(s, channel)) == Kept(s)
    ensures OnChannel(CloseChannel(s, channel).uploads, channel) == {}
    ensures forall k: Key | k.channel != channel :: SameUpload(s, CloseChannel(s, channel), k)
  {
    hide *;
    ValidParts(s);
    CloseKept(s, channel);
    CloseSame(s, channel);
    CloseOk(s, channel);
    ClosedIsEmpty(s, channel);
    FewStays(s.uploads, CloseChannel(s, channel).uploads);
    ValidFromParts(CloseChannel(s, channel));
  }

  lemma ValidParts(s: Server)
    requires Valid(s)
    ensures UploadsOk(s) && OwnTemps(s.uploads) && FewActive(s.uploads)
  {
  }

  lemma ValidFromParts(s: Server)
    requires UploadsOk(s) && OwnTemps(s.uploads) && FewActive(s.uploads)
    ensures Valid(s)
  {
  }

  lemma CloseKept(s: Server, channel: string)
    requires OwnTemps(s.uploads)
    ensures Kept(CloseChannel(s, channel)) == Kept(s)
  {
    hide Kept, OwnTemps;
    var n := CloseChannel(s, channel);
    var gone := set k | k in s.uploads && k.channel == channel :: s.uploads[k].temp;
    ClosedTemps(s, channel, gone);
    TempsWithout(s, n.uploads, gone);
    KeptSame(s, n);
  }

  /** The temporary files of the others stay: no two uploads share one. */
  lemma CloseSame(s: Server, channel: string)
    requires UploadsOk(s) && OwnTemps(s.uploads)
    ensures forall k: Key | k.channel != channel :: SameUpload(s, CloseChannel(s, channel), k)
  {
    hide FewActive;
    var n := CloseChannel(s, channel);
    forall k: Key | k.channel != channel ensures SameUpload(s, n, k) {
      assert k in s.uploads ==> UploadOk(s, s.uploads[k]);
    }
  }

  lemma CloseOk(s: Server, channel: string)
    requires UploadsOk(s) && OwnTemps(s.uploads)
    ensures UploadsOk(CloseChannel(s, channel)) && OwnTemps(CloseChannel(s, channel).uploads)
    ensures CloseChannel(s, channel).uploads.Keys <= s.uploads.Keys
  {
    var n := CloseChannel(s, channel);
    forall k | k in n.uploads ensures UploadOk(n, n.uploads[k]) {
      assert UploadOk(s, s.uploads[k]);
    }
  }

  lemma ClosedIsEmpty(s: Server, channel: string)
    ensures OnChannel(CloseChannel(s, channel).uploads, channel) == {}
  {
  }

  lemma ClosedTemps(s: Server, channel: string, gone: set<string>)
    requires gone == set k | k in s.uploads && k.channel == channel :: s.uploads[k].temp
    ensures gone == set k | k in s.uploads && k !in CloseChannel(s, channel).uploads :: s.uploads[k].temp
  {
  }

  /**
    Any message, on any channel, under any fault: the directory keeps splitting into user files and
    exactly one temporary file per active upload, no user file is overwritten or lost, other uploads
    are untouched, and a failing message leaves neither an upload nor a file behind.
  */
  lemma HandleKeeps(s: Server, key: Key, m: Message, temp: string, fault: Fault)
    requires Valid(s)
    ensures var (n, reply) := Handle(s, key, m, temp, fault);
            && Valid(n) && Preserves(s, n)
            && (!reply.Complete? ==> Kept(n) == Kept(s))
            && (reply == Failed && !m.Start? ==> key !in n.uploads)
            && forall k | k != key :: SameUpload(s, n, k)
  {
    hide Valid, Kept, SameUpload, StartUpload, WriteUpload, FinishUpload, Candidate, LeastFree;
    match m
    case Start(name, size) => StartKeeps(s, key, name, size, temp, fault);
    case Chunk(offset, data) => WriteKeeps(s, key, offset, data, fault);
    case Finish =>
      FinishKeeps(s, key, fault);
      KeptIsInDirectory(s);
    case Cancel => DroppedKeeps(s, key);
  }

  lemma KeptIsInDirectory(s: Server)
    ensures Kept(s).Keys <= s.dir.Keys
  {
  }
}
