/**
  Starting an upload takes two lock sections with the creation of the temporary file between them
  (`startFileUpload` in cloud/connector.go), on a channel fetched from the map even earlier
  (`handleEncrypted`), while the end of the relay connection closes channels from another goroutine
  (`closeAllChannels`). This is the interleaving of the two.
*/
module UploadRace {
  import opened UploadPaths
  import opened UploadRuns
  import opened Uploads
  import Collections

  /** What the one reading goroutine is doing; it keeps using the channel it has fetched. */
  datatype Reading = Idle | Fetched(channel: string) | Creating(key: Key, upload: Upload)

  /**
    `live` are the open channels, and `saved` is a history: the files that were there at first and
    those completed since.
  */
  datatype State = State(server: Server, reading: Reading, live: set<string>, used: set<string>, saved: Directory)

  datatype Action =
    | Opens(channel: string)
    | Fetches(channel: string)
    | Ignores
    | Creates(key: Key, name: string, size: int, temp: string, fault: Fault)
    | Registers
    | Handles(key: Key, m: Message, temp: string, fault: Fault)
    | Closes(channel: string)

  /** A new connection finds some files in the directory. */
  function Begin(files: Directory): State {
    State(Server(map[], files), Idle, {}, {}, files)
  }

  /** The first checks and the new file. */
  function Created(s: State, a: Action): State
    requires a.Creates?
  {
    var (n, reply) := StartUpload(s.server, a.key, a.name, a.size, a.temp, a.fault);
    if reply.Ready? then s.(server := s.server.(dir := n.dir), reading := Creating(a.key, n.uploads[a.key]))
    else s.(reading := Idle)
  }

  predicate Admits(s: State)
    requires s.reading.Creating?
  {
    s.reading.key !in s.server.uploads && |OnChannel(s.server.uploads, s.reading.key.channel)| < MAX_ACTIVE
  }

  /** The second check: the upload is registered with its channel, open or not, or its file removed. */
  function Registered(s: State): State
    requires s.reading.Creating?
  {
    if Admits(s) then
      s.(server := s.server.(uploads := s.server.uploads[s.reading.key := s.reading.upload]), reading := Idle)
    else s.(server := s.server.(dir := s.server.dir - {s.reading.upload.temp}), reading := Idle)
  }

  /** Channel ids are not reused, and a message is handled on the channel that was open when it was read. */
  predicate Enabled(s: State, a: Action) {
    match a
    case Opens(channel) => s.reading.Idle? && channel !in s.used
    case Fetches(channel) => s.reading.Idle? && channel in s.live
    case Ignores => s.reading.Fetched?
    case Creates(key, _, _, _, _) => s.reading == Fetched(key.channel)
    case Registers => s.reading.Creating?
    case Handles(key, m, _, _) => s.reading == Fetched(key.channel) && !m.Start?
    case Closes(channel) => channel in s.live
  }

  function Apply(s: State, a: Action): State
    requires Enabled(s, a)
  {
    match a
    case Opens(channel) => s.(live := s.live + {channel}, used := s.used + {channel})
    case Fetches(channel) => s.(reading := Fetched(channel))
    case Ignores => s.(reading := Idle)
    case Creates(_, _, _, _, _) => Created(s, a)
    case Registers => Registered(s)
    case Handles(key, m, temp, fault) =>
      var e := Handled(key, m, temp, fault);
      s.(server := After(s.server, e), reading := Idle, saved := s.saved + SavedAt(s.server, e))
    case Closes(channel) => s.(server := CloseChannel(s.server, channel), live := s.live - {channel})
  }

  predicate Stepped(s: State, a: Action, n: State) {
    Enabled(s, a) && n == Apply(s, a)
  }

  ghost predicate IsRun(states: seq<State>, actions: seq<Action>) {
    && |states| == |actions| + 1 && (exists files :: states[0] == Begin(files))
    && forall k | 0 <= k < |actions| :: Stepped(states[k], actions[k], states[k + 1])
  }

  /** With nothing between the two sections they are the one start of Uploads. */
  lemma SectionsMakeOneStart(s: State, a: Action)
    requires a.Creates? && Enabled(s, a)
    ensures var c := Created(s, a);
            (if c.reading.Creating? then Registered(c) else c).server == StartUpload(s.server, a.key, a.name, a.size, a.temp, a.fault).0
  {
    hide ValidUploadName;
  }

  // ---- the directory ---------------------------------------------------------------------------

  /** The temporary file that is not registered yet. */
  function Pending(s: State): Directory {
    if s.reading.Creating? then map[s.reading.upload.temp := []] else map[]
  }

  /**
    Everything in the directory is a saved file, the temporary file of a registered upload or the
    pending one; uploads are as the handlers expect them; and a start under way will pass its second check.
  */
  ghost predicate Inv(s: State) {
    && Valid(s.server)
    && Kept(s.server) == s.saved + Pending(s) && s.saved.Keys !! Pending(s).Keys
    && (s.reading.Creating? ==> Admits(s) && s.reading.upload.received == 0 <= s.reading.upload.size <= MAX_UPLOAD_SIZE)
  }

  lemma PendingIsSeparate(s: State)
    requires Inv(s) && s.reading.Creating?
    ensures var temp := s.reading.upload.temp;
            temp in s.server.dir && s.server.dir[temp] == [] && temp !in Temps(s.server.uploads) && temp !in s.saved
  {
    assert s.reading.upload.temp in Kept(s.server);
    hide Valid;
  }

  /** The directory without the pending file. */
  function Without(s: State): Server
    requires s.reading.Creating?
  {
    Server(s.server.uploads, s.server.dir - {s.reading.upload.temp})
  }

  lemma WithoutIsValid(s: State)
    requires Inv(s) && s.reading.Creating?
    ensures Valid(Without(s)) && Kept(Without(s)) == s.saved
  {
    PendingIsSeparate(s);
    hide FewActive, OwnTemps, OnChannel;
    forall k | k in s.server.uploads ensures UploadOk(Without(s), s.server.uploads[k]) {
      assert UploadOk(s.server, s.server.uploads[k]);
    }
    assert forall name | name in Kept(Without(s)) :: name in Kept(s.server);
  }

  lemma RegistersKeeps(s: State)
    requires Inv(s) && s.reading.Creating?
    ensures Inv(Registered(s)) && Registered(s).server.uploads == s.server.uploads[s.reading.key := s.reading.upload]
  {
    WithoutIsValid(s);
    PendingIsSeparate(s);
    var n := Registered(s);
    assert n.server == Started(Without(s), s.reading.key, s.reading.upload);
    hide Valid, Kept, Temps, OnChannel;
    StartedKept(Without(s), s.reading.key, s.reading.upload);
    StartedValid(Without(s), s.reading.key, s.reading.upload);
    assert s.saved + map[] == s.saved;
  }

  lemma NewFileKeeps(s: Server, temp: string)
    requires Valid(s) && temp !in s.dir
    ensures Valid(s.(dir := s.dir[temp := []])) && Kept(s.(dir := s.dir[temp := []])) == Kept(s)[temp := []] && temp !in Kept(s)
  {
    hide FewActive, OwnTemps;
    forall k | k in s.uploads ensures UploadOk(s.(dir := s.dir[temp := []]), s.uploads[k]) && s.uploads[k].temp != temp {
      assert UploadOk(s, s.uploads[k]);
    }
  }

  lemma CreatesKeeps(s: State, a: Action)
    requires Inv(s) && a.Creates? && Enabled(s, a)
    ensures Inv(Created(s, a))
  {
    var n := Created(s, a);
    if n.reading.Creating? {
      hide Valid, Kept, ValidUploadName, OnChannel;
      NewFileKeeps(s.server, a.temp);
      assert s.saved + map[] == s.saved;
    }
  }

  lemma ClosesKeeps(s: State, channel: string)
    requires Inv(s)
    ensures Inv(s.(server := CloseChannel(s.server, channel), live := s.live - {channel}))
  {
    hide Valid, Kept, Temps, SameUpload;
    CloseKeeps(s.server, channel);
    if s.reading.Creating? {
      FewerOnChannel(s.server, channel, s.reading.key.channel);
    }
  }

  lemma FewerOnChannel(s: Server, channel: string, other: string)
    ensures |OnChannel(CloseChannel(s, channel).uploads, other)| <= |OnChannel(s.uploads, other)|
  {
    Collections.SubsetIsSmaller(OnChannel(CloseChannel(s, channel).uploads, other), OnChannel(s.uploads, other));
  }

  lemma StepKeeps(s: State, a: Action, n: State)
    requires Inv(s) && Stepped(s, a, n)
    ensures Inv(n)
  {
    match a {
      case Creates(_, _, _, _, _) => CreatesKeeps(s, a);
      case Registers => RegistersKeeps(s);
      case Closes(channel) => ClosesKeeps(s, channel);
      case Handles(key, m, temp, fault) =>
        hide Valid, Kept, After, SavedAt;
        EventKeeps(s.server, Handled(key, m, temp, fault));
      case _ =>
    }
  }

  /**
    In every state of every run: at most two active uploads a channel, each with its own temporary file
    of the right size; every other file is a saved one, or the one that a start under way has just made.
  */
  lemma {:induction false} AlwaysInv(states: seq<State>, actions: seq<Action>, i: nat)
    requires IsRun(states, actions) && i < |states|
    ensures Inv(states[i])
  {
    hide Inv, Stepped;
    if i > 0 {
      AlwaysInv(states, actions, i - 1);
      StepKeeps(states[i - 1], actions[i - 1], states[i]);
    } else {
      BeginIsFine(states[0].saved);
    }
  }

  lemma BeginIsFine(files: Directory)
    ensures Inv(Begin(files)) && LiveWasOpened(Begin(files)) && NoneStranded(Begin(files))
  {
    assert Kept(Server(map[], files)) == files;
    assert files + map[] == files;
  }

  // ---- who removes the temporary files ---------------------------------------------------------

  /** An upload whose channel is closed: nothing will finish it, cancel it or remove its file. */
  ghost predicate Stranded(s: State, key: Key) {
    key in s.server.uploads && key.channel !in s.live
  }

  ghost predicate NoneStranded(s: State) {
    forall key | key in s.server.uploads :: !Stranded(s, key)
  }

  /** The step registers an upload with a channel that was closed after its message had been read. */
  predicate RegistersLate(s: State, a: Action) {
    a.Registers? && s.reading.Creating? && s.reading.key.channel !in s.live
  }

  ghost predicate LiveWasOpened(s: State) {
    && s.live <= s.used
    && (s.reading.Fetched? ==> s.reading.channel in s.used
                               && (s.reading.channel in s.live || OnChannel(s.server.uploads, s.reading.channel) == {}))
    && (s.reading.Creating? ==> s.reading.key.channel in s.used)
    && forall key | key in s.server.uploads :: key.channel in s.used
  }

  /** A handled message drops at most its own upload. */
  lemma HandledKeys(s: Server, key: Key, m: Message, temp: string, fault: Fault)
    requires !m.Start?
    ensures Handle(s, key, m, temp, fault).0.uploads.Keys <= s.uploads.Keys
    ensures s.uploads.Keys - {key} <= Handle(s, key, m, temp, fault).0.uploads.Keys
  {
    hide ValidChunk, FirstFree, Candidate;
  }

  lemma CloseLeaves(s: Server, channel: string)
    ensures CloseChannel(s, channel).uploads.Keys <= s.uploads.Keys && OnChannel(CloseChannel(s, channel).uploads, channel) == {}
    ensures forall other | OnChannel(s.uploads, other) == {} :: OnChannel(CloseChannel(s, channel).uploads, other) == {}
    ensures forall k: Key | k in s.uploads && k.channel != channel :: k in CloseChannel(s, channel).uploads
  {
    forall other | OnChannel(s.uploads, other) == {} ensures OnChannel(CloseChannel(s, channel).uploads, other) == {} {
      assert forall k: Key | k in s.uploads :: k in OnChannel(s.uploads, k.channel);
    }
  }

  lemma StepKeepsOpened(s: State, a: Action, n: State)
    requires LiveWasOpened(s) && Stepped(s, a, n)
    ensures LiveWasOpened(n)
  {
    hide StartUpload, Handle, CloseChannel;
    match a {
      case Handles(key, m, temp, fault) => HandledKeys(s.server, key, m, temp, fault);
      case Closes(channel) => CloseLeaves(s.server, channel);
      case _ =>
    }
  }

  /** The only message in progress cannot be for a stranded upload. */
  lemma HandlesNoneStranded(s: State, key: Key, m: Message, temp: string, fault: Fault)
    requires LiveWasOpened(s) && Enabled(s, Handles(key, m, temp, fault))
    ensures !Stranded(s, key)
  {
    assert key in s.server.uploads ==> key in OnChannel(s.server.uploads, key.channel);
  }

  lemma StrandedStays(s: State, a: Action, n: State, key: Key)
    requires LiveWasOpened(s) && Stepped(s, a, n) && Stranded(s, key)
    ensures Stranded(n, key)
  {
    hide StartUpload, Handle, CloseChannel;
    match a {
      case Handles(k, m, temp, fault) =>
        HandlesNoneStranded(s, k, m, temp, fault);
        HandledKeys(s.server, k, m, temp, fault);
      case Closes(channel) => CloseLeaves(s.server, channel);
      case _ =>
    }
  }

  lemma StepStrands(s: State, a: Action, n: State)
    requires Inv(s) && LiveWasOpened(s) && Stepped(s, a, n)
    ensures NoneStranded(n) <==> NoneStranded(s) && !RegistersLate(s, a)
  {
    if !NoneStranded(s) {
      var key :| key in s.server.uploads && Stranded(s, key);
      StrandedStays(s, a, n, key);
    } else if RegistersLate(s, a) {
      assert Stranded(n, s.reading.key);
    } else {
      StepStrandsNobody(s, a, n);
    }
  }

  lemma StepStrandsNobody(s: State, a: Action, n: State)
    requires LiveWasOpened(s) && Stepped(s, a, n) && NoneStranded(s) && !RegistersLate(s, a)
    ensures NoneStranded(n)
  {
    hide StartUpload, Handle, LiveWasOpened, Admits;
    forall key | key in n.server.uploads ensures !Stranded(n, key) {
      match a {
        case Handles(k, m, temp, fault) => HandledKeys(s.server, k, m, temp, fault);
        case _ =>
      }
      assert key in s.server.uploads ==> !Stranded(s, key);
    }
  }

  lemma {:induction false} RunStrands(states: seq<State>, actions: seq<Action>, i: nat)
    requires IsRun(states, actions) && i < |states|
    ensures LiveWasOpened(states[i])
    ensures NoneStranded(states[i]) <==> forall k | 0 <= k < i :: !RegistersLate(states[k], actions[k])
  {
    hide LiveWasOpened, NoneStranded, RegistersLate, Stepped, Inv;
    if i > 0 {
      RunStrands(states, actions, i - 1);
      AlwaysInv(states, actions, i - 1);
      StepKeepsOpened(states[i - 1], actions[i - 1], states[i]);
      StepStrands(states[i - 1], actions[i - 1], states[i]);
    } else {
      BeginIsFine(states[0].saved);
    }
  }

  /** With every channel closed and nothing being read, what is left over are stranded temporary files. */
  lemma LeftOver(s: State)
    requires Inv(s) && s.live == {} && s.reading.Idle?
    ensures s.server.dir == s.saved <==> NoneStranded(s)
  {
    assert s.saved + map[] == s.saved;
    if key :| key in s.server.uploads {
      assert UploadOk(s.server, s.server.uploads[key]) && Stranded(s, key);
      assert s.server.uploads[key].temp in Temps(s.server.uploads);
      assert s.server.uploads[key].temp !in Kept(s.server);
    } else {
      assert Kept(s.server) == s.server.dir;
    }
    hide Valid;
  }

  /**
    Exactly when closing the channels cleans up: at the end of a connection the directory is the files
    that were there and the files completed since, iff no upload was registered with a channel that had
    closed since its message was read.
  */
  lemma ClosingCleansUpIff(states: seq<State>, actions: seq<Action>, i: nat)
    requires IsRun(states, actions) && i < |states| && states[i].live == {} && states[i].reading.Idle?
    ensures states[i].server.dir == states[i].saved <==> forall k | 0 <= k < i :: !RegistersLate(states[k], actions[k])
  {
    hide Inv, Stepped, RegistersLate, NoneStranded, LiveWasOpened;
    AlwaysInv(states, actions, i);
    RunStrands(states, actions, i);
    LeftOver(states[i]);
  }

  /**
    Two runs in which the connection ends while a start is under way, before its first section or
    between the two, and the temporary file stays for good.
  */
  lemma LateRegistrationLeavesFile(early: bool) returns (states: seq<State>, actions: seq<Action>)
    ensures IsRun(states, actions) && |actions| == 5 && states[0] == Begin(map[])
    ensures actions[if early then 2 else 3] == Action.Closes("c") && actions[4] == Registers
    ensures states[5].live == {} && states[5].reading.Idle? && states[5].saved == map[]
    ensures states[5].server.dir == map["t" := []] && states[5].server.uploads.Keys == {Key("c", "i")}
  {
    var key, u, creates := Key("c", "i"), Upload("t", "f", 1, 0), Creates(Key("c", "i"), "f", 1, "t", NoFault);
    var empty, made := Server(map[], map[]), Server(map[], map["t" := []]);
    var s1 := State(empty, Idle, {"c"}, {"c"}, map[]);
    var s2 := State(empty, Fetched("c"), {"c"}, {"c"}, map[]);
    var s3 := if early then State(empty, Fetched("c"), {}, {"c"}, map[]) else State(made, Creating(key, u), {"c"}, {"c"}, map[]);
    var s4 := State(made, Creating(key, u), {}, {"c"}, map[]);
    var s5 := State(Server(map[key := u], map["t" := []]), Idle, {}, {"c"}, map[]);
    actions := [Opens("c"), Fetches("c"), if early then Action.Closes("c") else creates, if early then creates else Action.Closes("c"), Registers];
    states := [Begin(map[]), s1, s2, s3, s4, s5];
    assert Stepped(states[0], actions[0], s1) && Stepped(s1, actions[1], s2);
    CreateExample(if early then s3 else s2, creates, if early then s4 else s3);
    CloseExample(if early then s2 else s3, if early then s3 else s4);
    assert OnChannel(map[], "c") == {};
    assert Stepped(s4, actions[4], s5);
  }

  lemma CreateExample(s: State, a: Action, n: State)
    requires s.server == Server(map[], map[]) && s.reading == Fetched("c") && a == Creates(Key("c", "i"), "f", 1, "t", NoFault)
    requires n == s.(server := Server(map[], map["t" := []]), reading := Creating(Key("c", "i"), Upload("t", "f", 1, 0)))
    ensures Stepped(s, a, n)
  {
    assert OnChannel(map[], "c") == {};
    assert ValidUploadName("f");
  }

  lemma CloseExample(s: State, n: State)
    requires s.server.uploads == map[] && s.live == {"c"} && n == s.(live := {})
    ensures Stepped(s, Action.Closes("c"), n)
  {
    assert CloseChannel(s.server, "c").uploads == map[];
    assert CloseChannel(s.server, "c").dir == s.server.dir;
    assert {"c"} - {"c"} == {};
  }
}
