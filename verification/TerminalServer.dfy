/**
  Attaching to a terminal, end to end: the daemon's `terminal` handler (server/server.go), the frames
  it writes, and what the browser's reconciler makes of them.
*/
module TerminalServer {
  import opened Bytes
  import opened PtySession
  import R = Reconciler

  datatype Wire = Frame(frame: R.Frame) | Status(alreadyExited: bool)

  /** What the scheduler and the peer do to the handler's `select` loop. */
  datatype Turn = ChildWrites(chunk: Bytes) | ChildExits | TakeUpdate | SeeDone | Ping | ReadFails

  function Frames(frames: seq<R.Frame>): seq<Wire> {
    seq(|frames|, k requires 0 <= k < |frames| => Frame(frames[k]))
  }

  function Pieces(initial: Bytes): seq<Bytes> {
    if initial == [] then [] else [initial]
  }

  /** What a subscriber has been sent so far. */
  ghost function Sent(published: seq<Bytes>, feed: Feed): seq<Bytes>
    requires InOrder(published, feed)
  {
    Pick(published, feed.accepted)[..feed.taken]
  }

  ghost function WireOf(published: seq<Bytes>, feed: Feed): seq<Wire>
    requires InOrder(published, feed)
  {
    Frames(R.Framed(Pieces(Initial(published, feed)), Sent(published, feed)))
  }

  lemma WireParts(before: seq<Bytes>, published: seq<Bytes>, feed: Feed, initial: Bytes)
    requires InOrder(published, feed) && before <= published && feed.joined == |before| && initial == Scrollback(before)
    ensures WireOf(published, feed) == Frames(R.Framed(Pieces(initial), [])) + Frames(R.AsBinary(Sent(published, feed)))
    ensures feed.taken == 0 ==> Frames(R.AsBinary(Sent(published, feed))) == []
  {
    assert published[..feed.joined] == before;
    var live := Sent(published, feed);
    assert R.Framed(Pieces(initial), live) == R.Framed(Pieces(initial), []) + R.AsBinary(live);
  }

  /** A publish changes nothing that was already sent. */
  lemma SentStays(published: seq<Bytes>, data: Bytes, feed: Feed, queue: seq<Bytes>)
    requires InOrder(published, feed) && InOrder(published + [data], OfferedFeed(feed, queue, |published|))
    ensures Sent(published + [data], OfferedFeed(feed, queue, |published|)) == Sent(published, feed)
  {
  }

  lemma SentGrows(published: seq<Bytes>, feed: Feed)
    requires InOrder(published, feed) && feed.taken < |feed.accepted|
    ensures Sent(published, feed.(taken := feed.taken + 1)) == Sent(published, feed) + [Pick(published, feed.accepted)[feed.taken]]
  {
  }

  lemma LivePush(live: seq<Bytes>, chunk: Bytes)
    ensures Frames(R.AsBinary(live + [chunk])) == Frames(R.AsBinary(live)) + [Frame(R.Binary(chunk))]
  {
    assert R.AsBinary(live + [chunk]) == R.AsBinary(live) + [R.Binary(chunk)];
  }

  /** The snapshot between its two control frames; an empty one has no binary frame. */
  method WriteSnapshot(initial: Bytes) returns (wire: seq<Wire>)
    ensures wire == Frames(R.Framed(Pieces(initial), []))
  {
    wire := [Frame(R.SnapshotStart(|initial|))];
    if |initial| > 0 {
      wire := wire + [Frame(R.Binary(initial))];
    }
    wire := wire + [Frame(R.SnapshotEnd)];
    FlattenOne(initial);
    assert R.Framed(Pieces(initial), []) == [R.SnapshotStart(|initial|)] + R.AsBinary(Pieces(initial)) + [R.SnapshotEnd];
  }

  /** The subscriber is still attached where it joined. */
  ghost predicate Attached(session: Session, sub: nat, joined: nat)
    reads session
  {
    && session.Valid() && sub in session.subscribers && sub in session.feeds
    && session.feeds[sub].joined == joined <= |session.published|
  }

  /** The subscriber's view of the session. */
  ghost function Now(session: Session, sub: nat): Subscriber
    requires sub in session.subscribers && sub in session.feeds
    reads session
  {
    Subscriber(session.published, session.feeds[sub], session.subscribers[sub])
  }

  /** What a turn of the `select` loop does to the subscriber. */
  function Does(turn: Turn): seq<Event> {
    if turn.ChildWrites? then [Publishes(turn.chunk)] else if turn.TakeUpdate? then [Takes] else []
  }

  function EventsOf(turns: seq<Turn>): seq<Event> {
    if turns == [] then [] else EventsOf(turns[..|turns| - 1]) + Does(turns[|turns| - 1])
  }

  /** While its reader is busy, only the child does anything. */
  function OutputOf(turns: seq<Turn>): seq<Event> {
    if turns == [] then []
    else
      var last := turns[|turns| - 1];
      OutputOf(turns[..|turns| - 1]) + if last.ChildWrites? then Does(last) else []
  }

  lemma EventsPush(turns: seq<Turn>, turn: Turn)
    ensures OutputOf(turns + [turn]) == OutputOf(turns) + if turn.ChildWrites? then Does(turn) else []
    ensures EventsOf(turns + [turn]) == EventsOf(turns) + Does(turn)
  {
    assert (turns + [turn])[..|turns|] == turns;
  }

  lemma RunTurn(s: Subscriber, events: seq<Event>, turn: Turn)
    ensures RunEvents(s, events + []) == RunEvents(s, events)
    ensures RunEvents(s, events + Does(turn)) ==
            if turn.ChildWrites? then After(RunEvents(s, events), Publishes(turn.chunk))
            else if turn.TakeUpdate? then After(RunEvents(s, events), Takes)
            else RunEvents(s, events)
  {
    var longer := events + Does(turn);
    assert events + [] == events;
    if turn.ChildWrites? || turn.TakeUpdate? {
      assert longer[..|longer| - 1] == events;
    }
  }

  lemma RunNothing(s: Subscriber)
    ensures RunEvents(s, []) == s && OutputOf([]) == [] && EventsOf([]) == []
  {
  }

  /** The child's output reaches the subscriber's channel, if there is room. */
  method ChildWrote(session: Session, ghost sub: nat, ghost joined: nat, chunk: Bytes)
    requires Attached(session, sub, joined)
    modifies session
    ensures Attached(session, sub, joined) && Now(session, sub) == After(old(Now(session, sub)), Publishes(chunk))
    ensures old(session.published) <= session.published && session.running == old(session.running)
  {
    hide Scrollback;
    session.Publish(chunk);
  }

  method Exit(session: Session, ghost sub: nat, ghost joined: nat)
    requires Attached(session, sub, joined)
    modifies session`running
    ensures Attached(session, sub, joined) && !session.running && Now(session, sub) == old(Now(session, sub))
  {
    hide FeedsOk, Scrollback;
    session.End();
  }

  /** What the child does while the handler is busy writing the snapshot. */
  method Meanwhile(session: Session, ghost sub: nat, ghost joined: nat, turns: seq<Turn>)
    requires Attached(session, sub, joined)
    modifies session
    ensures Attached(session, sub, joined) && session.feeds[sub].taken == old(session.feeds[sub].taken)
    ensures old(session.published) <= session.published
    ensures Now(session, sub) == RunEvents(old(Now(session, sub)), OutputOf(turns))
    ensures session.running <==> old(session.running) && ChildExits !in turns
  {
    hide RunEvents, OutputOf, Does, Scrollback;
    RunNothing(Now(session, sub));
    for k := 0 to |turns|
      invariant Attached(session, sub, joined) && session.feeds[sub].taken == old(session.feeds[sub].taken)
      invariant old(session.published) <= session.published
      invariant Now(session, sub) == RunEvents(old(Now(session, sub)), OutputOf(turns[..k]))
      invariant session.running <==> old(session.running) && ChildExits !in turns[..k]
    {
      assert turns[..k + 1] == turns[..k] + [turns[k]];
      EventsPush(turns[..k], turns[k]);
      RunTurn(old(Now(session, sub)), OutputOf(turns[..k]), turns[k]);
      match turns[k] {
        case ChildWrites(chunk) => ChildWrote(session, sub, joined, chunk);
        case ChildExits => Exit(session, sub, joined);
        case _ =>
      }
    }
    assert turns[..|turns|] == turns;
  }

  /** Turn `i` ends the loop: the peer has failed, or the done channel is seen closed. */
  predicate Stops(turns: seq<Turn>, i: nat, running: bool)
    requires i < |turns|
  {
    turns[i].ReadFails? || (turns[i].SeeDone? && (!running || ChildExits in turns[..i]))
  }

  /** The loop has gone through `k` turns: it ended at the first that stops it, or there was none. */
  predicate EndsAfter(turns: seq<Turn>, k: nat, running: bool) {
    && k <= |turns|
    && (forall i | 0 <= i < k - 1 :: !Stops(turns, i, running))
    && (k < |turns| ==> 0 < k && Stops(turns, k - 1, running))
  }

  /** The status that the loop writes when it ends: only one that saw the child's exit writes one. */
  function FinalStatus(turns: seq<Turn>, k: nat, running: bool): seq<Wire>
    requires k <= |turns|
  {
    if 0 < k && turns[k - 1].SeeDone? && Stops(turns, k - 1, running) then [Status(false)] else []
  }

  /** One frame for each update taken so far. */
  ghost function LiveWire(s: Subscriber): seq<Wire> {
    if InOrder(s.published, s.feed) then Frames(R.AsBinary(Sent(s.published, s.feed))) else []
  }

  lemma NothingSent(s: Subscriber)
    requires InOrder(s.published, s.feed) && s.feed.taken == 0
    ensures LiveWire(s) == []
  {
  }

  /** A publish sends nothing; taking an update sends exactly that. */
  lemma LiveAfter(s: Subscriber, e: Event)
    requires InStep(s)
    ensures InStep(After(s, e))
    ensures LiveWire(After(s, e)) == LiveWire(s) + if e.Takes? && s.queue != [] then [Frame(R.Binary(s.queue[0]))] else []
  {
    AfterKeeps(s, e);
    hide Frames, R.AsBinary;
    if e.Publishes? {
      SentStays(s.published, e.data, s.feed, s.queue);
    } else if s.queue != [] {
      SentGrows(s.published, s.feed);
      LivePush(Sent(s.published, s.feed), s.queue[0]);
    }
  }

  lemma AttachedInStep(session: Session, sub: nat, joined: nat)
    requires Attached(session, sub, joined)
    ensures sub in session.subscribers && sub in session.feeds && InStep(Now(session, sub)) && session.feeds[sub].joined == joined
    ensures InOrder(session.published, session.feeds[sub]) && InOrder(Now(session, sub).published, Now(session, sub).feed)
  {
  }

  /** `data := <-updates`, and the frame that goes out for it. */
  method Take(session: Session, sub: nat, ghost joined: nat) returns (frames: seq<Wire>)
    requires Attached(session, sub, joined)
    modifies session
    ensures Attached(session, sub, joined) && Now(session, sub) == After(old(Now(session, sub)), Takes)
    ensures session.published == old(session.published) && session.running == old(session.running)
    ensures old(InOrder(session.published, session.feeds[sub])) && InOrder(session.published, session.feeds[sub])
    ensures LiveWire(Now(session, sub)) == old(LiveWire(Now(session, sub))) + frames
    ensures old(session.subscribers[sub]) != [] <==> |frames| == 1
  {
    hide Scrollback, LiveWire;
    LiveAfter(Now(session, sub), Takes);
    frames := [];
    if session.subscribers[sub] != [] {
      var chunk := session.Receive(sub);
      frames := [Frame(R.Binary(chunk))];
    }
  }

  /**
    The `select` loop: up to the turn that ends it, everything the child writes is published, and every
    update it takes goes out as one binary frame; a loop that sees the child's exit adds one status.
  */
  method SelectLoop(session: Session, sub: nat, ghost joined: nat, turns: seq<Turn>) returns (wire: seq<Wire>, ghost k: nat)
    requires Attached(session, sub, joined) && session.feeds[sub].taken == 0
    modifies session
    ensures Attached(session, sub, joined) && old(session.published) <= session.published
    ensures k <= |turns| && EndsAfter(turns, k, old(session.running))
    ensures Now(session, sub) == RunEvents(old(Now(session, sub)), EventsOf(turns[..k]))
    ensures InOrder(session.published, session.feeds[sub])
    ensures wire == LiveWire(Now(session, sub)) + FinalStatus(turns, k, old(session.running))
  {
    hide RunEvents, EventsOf, Does, LiveWire, Scrollback, After, InStep, FeedsOk, InOrder, Session.Valid, Now, Attached, QueueHolds, Frames, R.AsBinary;
    wire := [];
    AttachedInStep(session, sub, joined);
    RunNothing(Now(session, sub));
    NowIs(session, sub);
    NothingSent(Now(session, sub));
    var i, exit := 0, false;
    while i < |turns| && !exit
      invariant i <= |turns|
      invariant Attached(session, sub, joined) && sub in session.subscribers && sub in session.feeds
      invariant old(session.published) <= session.published && InOrder(session.published, session.feeds[sub])
      invariant Now(session, sub) == RunEvents(old(Now(session, sub)), EventsOf(turns[..i]))
      invariant session.running <==> old(session.running) && ChildExits !in turns[..i]
      invariant forall j | 0 <= j < if exit then i - 1 else i :: !Stops(turns, j, old(session.running))
      invariant exit ==> 0 < i && Stops(turns, i - 1, old(session.running))
      invariant wire == LiveWire(Now(session, sub)) + if exit && turns[i - 1].SeeDone? then [Status(false)] else []
    {
      assert turns[..i + 1] == turns[..i] + [turns[i]];
      EventsPush(turns[..i], turns[i]);
      RunTurn(old(Now(session, sub)), EventsOf(turns[..i]), turns[i]);
      AttachedInStep(session, sub, joined);
      match turns[i] {
        case ChildWrites(chunk) =>
          LiveAfter(Now(session, sub), Publishes(chunk));
          ChildWrote(session, sub, joined, chunk);
        case ChildExits => Exit(session, sub, joined);
        case TakeUpdate =>
          var frames := Take(session, sub, joined);
          wire := wire + frames;
        case SeeDone =>
          if !session.running {
            wire := wire + [Status(false)];
            exit := true;
          }
        case Ping =>
        case ReadFails => exit := true;
      }
      AttachedInStep(session, sub, joined);
      i := i + 1;
    }
    k := i;
  }

  lemma AttachedWire(session: Session, sub: nat, before: seq<Bytes>, initial: Bytes)
    requires Attached(session, sub, |before|) && before <= session.published && initial == Scrollback(before)
    ensures session.Valid() && sub in session.feeds && session.feeds[sub].joined == |before|
    ensures InOrder(session.published, session.feeds[sub])
    ensures WireOf(session.published, session.feeds[sub]) ==
            Frames(R.Framed(Pieces(initial), [])) + Frames(R.AsBinary(Sent(session.published, session.feeds[sub])))
    ensures session.feeds[sub].taken == 0 ==> Frames(R.AsBinary(Sent(session.published, session.feeds[sub]))) == []
    ensures sub in session.subscribers && LiveWire(Now(session, sub)) == Frames(R.AsBinary(Sent(session.published, session.feeds[sub])))
  {
    hide QueueHolds, WireOf, Sent, Frames, R.Framed, R.AsBinary, Scrollback;
    WireParts(before, session.published, session.feeds[sub], initial);
  }

  method Join(session: Session) returns (sub: nat, initial: Bytes)
    requires session.Valid()
    modifies session
    ensures session.published == old(session.published) && initial == Scrollback(session.published)
    ensures session.running == old(session.running)
    ensures Attached(session, sub, |session.published|) && Now(session, sub) == Joined(session.published)
  {
    hide FeedsOk, Scrollback;
    sub, initial := session.Subscribe();
    assert session.published[..|session.published|] == session.published;
  }

  lemma {:induction false} RunConcat(s: Subscriber, a: seq<Event>, b: seq<Event>)
    ensures RunEvents(s, a + b) == RunEvents(RunEvents(s, a), b)
  {
    hide After;
    if b == [] {
      assert a + b == a;
    } else {
      RunConcat(s, a, b[..|b| - 1]);
      assert (a + b)[..|a + b| - 1] == a + b[..|b| - 1];
    }
  }

  /** Everything that reaches the subscriber: while the snapshot goes out, and then, unless the child has exited by then, in the loop. */
  function Experienced(meanwhile: seq<Turn>, turns: seq<Turn>, k: nat, exited: bool): seq<Event>
    requires k <= |turns|
  {
    OutputOf(meanwhile) + if exited then [] else EventsOf(turns[..k])
  }

  lemma ExperiencedIs(meanwhile: seq<Turn>, turns: seq<Turn>, k: nat)
    requires k <= |turns|
    ensures Experienced(meanwhile, turns, k, true) == OutputOf(meanwhile)
    ensures Experienced(meanwhile, turns, k, false) == OutputOf(meanwhile) + EventsOf(turns[..k])
  {
  }

  /**
    `terminal`: the snapshot, then live updates until the session is done or the peer fails. The wire
    holds the frames of exactly what the subscriber has been given: the scrollback at the attach and one
    frame for each update taken. A child that exited while the snapshot was going out gets status
    "already exited" and no live output; otherwise the status is sent iff the loop saw the exit.
  */
  method Terminal(session: Session, meanwhile: seq<Turn>, turns: seq<Turn>) returns (wire: seq<Wire>, ghost id: nat, ghost k: nat)
    requires session.Valid()
    modifies session
    ensures session.Valid() && id in session.feeds && InOrder(session.published, session.feeds[id])
    ensures var exited := !old(session.running) || ChildExits in meanwhile;
            && (if exited then k == 0 else EndsAfter(turns, k, true))
            && var s := RunEvents(Joined(old(session.published)), Experienced(meanwhile, turns, k, exited));
               && session.published == s.published && session.feeds[id] == s.feed
               && wire == WireOf(session.published, session.feeds[id]) + if exited then [Status(true)] else FinalStatus(turns, k, true)
  {
    hide *;
    ghost var before := session.published;
    ghost var joined := |before|;
    var sub, initial := Join(session);
    id, k := sub, 0;
    wire := WriteSnapshot(initial);
    JoinedIsFresh(session, sub, before);
    Meanwhile(session, sub, joined, meanwhile);
    ExperiencedIs(meanwhile, turns, 0);
    AttachedWire(session, sub, before, initial);
    if !session.running {
      wire := wire + [Status(true)];
    } else {
      ghost var busy := Now(session, sub);
      var live;
      live, k := SelectLoop(session, sub, joined, turns);
      AttachedWire(session, sub, before, initial);
      RunConcat(Joined(before), OutputOf(meanwhile), EventsOf(turns[..k]));
      ExperiencedIs(meanwhile, turns, k);
      wire := wire + live;
    }
    NowIs(session, sub);
    session.Cancel(sub);
  }

  lemma JoinedIsFresh(session: Session, sub: nat, published: seq<Bytes>)
    requires Attached(session, sub, |published|) && Now(session, sub) == Joined(published)
    ensures sub in session.feeds && session.feeds[sub].taken == 0
  {
  }

  lemma NowIs(session: Session, sub: nat)
    requires sub in session.subscribers && sub in session.feeds
    ensures Now(session, sub).published == session.published && Now(session, sub).feed == session.feeds[sub]
  {
  }

  /** The bytes an action writes to the screen. */
  function Shown(actions: seq<R.Action>): Bytes {
    Flatten(seq(|actions|, k requires 0 <= k < |actions| => actions[k].data))
  }

  lemma ShownIs(snapshot: Bytes, live: seq<Bytes>)
    ensures Shown([R.Snapshot(snapshot)] + R.AsLive(live)) == snapshot + Flatten(live)
  {
    var actions := [R.Snapshot(snapshot)] + R.AsLive(live);
    assert seq(|actions|, k requires 0 <= k < |actions| => actions[k].data) == [snapshot] + live;
    FlattenConcat([snapshot], live);
    FlattenOne(snapshot);
  }

  /**
    End to end: for any child output and attach moment, any split of the snapshot on the way and any
    point where the connection breaks, the reconciler never throws and shows nothing, or the
    scrollback at the attach followed by chunks the subscriber's channel accepted, in order. If the
    channel never dropped a chunk, that is exactly an end of what the child had written by then.
  */
  lemma BrowserShowsSuffix(published: seq<Bytes>, feed: Feed, pieces: seq<Bytes>, cut: nat)
    requires InOrder(published, feed) && Flatten(pieces) == Initial(published, feed)
    requires cut <= |R.Framed(pieces, Sent(published, feed))|
    ensures var out := R.Feed(R.START, R.Framed(pieces, Sent(published, feed))[..cut]);
            && !out.failed
            && (cut < |pieces| + 2 ==> out.actions == [])
            && (|pieces| + 2 <= cut ==>
                  var n := cut - |pieces| - 2;
                  && out.actions == [R.Snapshot(Initial(published, feed))] + R.AsLive(Sent(published, feed)[..n])
                  && (Lossless(published, feed) ==>
                        Shown(out.actions) == Last(Flatten(published[..feed.joined + n]), |Shown(out.actions)|)))
  {
    hide *;
    var sent := Sent(published, feed);
    R.FramedLength(pieces, sent);
    InitialIsBounded(published, feed);
    SentLength(published, feed);
    R.FramedStreamReassembles(pieces, sent, cut);
    if |pieces| + 2 <= cut && Lossless(published, feed) {
      ShowsSuffix(published, feed, cut - |pieces| - 2);
    }
  }

  /**
    So while the subscriber's channel is never full at a publish, the browser shows, at every point of
    the stream from the end of the snapshot on, exactly an end of what the child had written by then.
  */
  lemma NeverFullShowsSuffix(before: seq<Bytes>, events: seq<Event>, pieces: seq<Bytes>)
    requires NeverFull(Joined(before), events) && Flatten(pieces) == Scrollback(before)
    ensures var n := RunEvents(Joined(before), events);
            && InStep(n)
            && forall cut: nat | |pieces| + 2 <= cut <= |R.Framed(pieces, Sent(n.published, n.feed))| ::
                 ShowsEnd(n.published, |before| + cut - |pieces| - 2, R.Feed(R.START, R.Framed(pieces, Sent(n.published, n.feed))[..cut]))
  {
    hide *;
    JoinedIsInStep(before);
    LosslessIffNeverFull(Joined(before), events);
    var n := RunEvents(Joined(before), events);
    InStepIs(before, n);
    R.FramedLength(pieces, Sent(n.published, n.feed));
    SentLength(n.published, n.feed);
    forall cut: nat | |pieces| + 2 <= cut <= |R.Framed(pieces, Sent(n.published, n.feed))|
      ensures ShowsEnd(n.published, |before| + cut - |pieces| - 2, R.Feed(R.START, R.Framed(pieces, Sent(n.published, n.feed))[..cut]))
    {
      BrowserShowsSuffix(n.published, n.feed, pieces, cut);
      ShowsEndIs(n.published, n.feed, cut - |pieces| - 2, R.Feed(R.START, R.Framed(pieces, Sent(n.published, n.feed))[..cut]));
    }
  }

  /**
    And nothing is left out for good: once the loop has found its channel drained (256 reads always
    do), the screen is an end of everything the child has written.
  */
  lemma EverythingArrives(before: seq<Bytes>, events: seq<Event>, m: nat, pieces: seq<Bytes>)
    requires NeverFull(Joined(before), events) && Flatten(pieces) == Scrollback(before) && m >= QUEUE_SLOTS
    ensures var n := RunEvents(Joined(before), events + Reads(m));
            && InStep(n) && n.queue == [] && n.published == RunEvents(Joined(before), events).published
            && ShowsEnd(n.published, |n.published|, R.Feed(R.START, R.Framed(pieces, Sent(n.published, n.feed))))
  {
    var n := RunEvents(Joined(before), events + Reads(m));
    hide *;
    JoinedIsInStep(before);
    LosslessIffNeverFull(Joined(before), events);
    ReadsDrain(Joined(before), events, m);
    LosslessIffNeverFull(Joined(before), events + Reads(m));
    QueueIsShort(RunEvents(Joined(before), events));
    NeverFullShowsSuffix(before, events + Reads(m), pieces);
    DrainedIsAll(before, n, pieces);
  }

  lemma QueueIsShort(s: Subscriber)
    requires InStep(s)
    ensures |s.queue| <= QUEUE_SLOTS
  {
  }

  lemma DrainedIsAll(before: seq<Bytes>, n: Subscriber, pieces: seq<Bytes>)
    requires InStep(n) && n.queue == [] && Lossless(n.published, n.feed) && n.feed.joined == Joined(before).feed.joined
    requires forall cut: nat | |pieces| + 2 <= cut <= |R.Framed(pieces, Sent(n.published, n.feed))| ::
               ShowsEnd(n.published, |before| + cut - |pieces| - 2, R.Feed(R.START, R.Framed(pieces, Sent(n.published, n.feed))[..cut]))
    ensures ShowsEnd(n.published, |n.published|, R.Feed(R.START, R.Framed(pieces, Sent(n.published, n.feed))))
  {
    hide ShowsEnd, R.Framed, R.Feed;
    var stream := R.Framed(pieces, Sent(n.published, n.feed));
    R.FramedLength(pieces, Sent(n.published, n.feed));
    SentLength(n.published, n.feed);
    assert stream[..|stream|] == stream;
    assert ShowsEnd(n.published, |before| + |stream| - |pieces| - 2, R.Feed(R.START, stream[..|stream|]));
  }

  /** The screen holds an end of the first `k` chunks: all of them, or at least the last 2 MiB. */
  ghost predicate ShowsEnd(published: seq<Bytes>, k: int, out: R.Outcome) {
    && 0 <= k <= |published| && !out.failed
    && var written, shown := Flatten(published[..k]), Shown(out.actions);
       shown == Last(written, |shown|) && (|shown| == |written| || |shown| >= MAX_SCROLLBACK)
  }

  lemma ShowsEndIs(published: seq<Bytes>, feed: Feed, n: nat, out: R.Outcome)
    requires InOrder(published, feed) && Lossless(published, feed) && n <= feed.taken && !out.failed
    requires out.actions == [R.Snapshot(Initial(published, feed))] + R.AsLive(Sent(published, feed)[..n])
    ensures ShowsEnd(published, feed.joined + n, out)
  {
    hide Shown, R.AsLive, Flatten, Lossless;
    ShownIs(Initial(published, feed), Sent(published, feed)[..n]);
    assert Sent(published, feed)[..n] == Pick(published, feed.accepted)[..n];
    SentLength(published, feed);
    SnapshotThenLiveIsSuffix(published, feed, n);
    LosslessIsContiguous(published, feed);
    var before, live := published[..feed.joined], published[feed.joined..][..n];
    assert published[..feed.joined + n] == before + live;
    FlattenConcat(before, live);
  }

  lemma InStepIs(before: seq<Bytes>, n: Subscriber)
    requires InStep(n) && n.feed.joined == Joined(before).feed.joined && Joined(before).published <= n.published
    ensures InOrder(n.published, n.feed) && n.feed.joined == |before| && Initial(n.published, n.feed) == Scrollback(before)
  {
    assert n.published[..|before|] == before;
  }

  lemma InitialIsBounded(published: seq<Bytes>, feed: Feed)
    requires InOrder(published, feed)
    ensures |Initial(published, feed)| <= R.MAX_TERMINAL_SNAPSHOT_BYTES
  {
  }

  lemma SentLength(published: seq<Bytes>, feed: Feed)
    requires InOrder(published, feed)
    ensures |Sent(published, feed)| == feed.taken && feed.joined + feed.taken <= |published|
  {
    if feed.taken > 0 {
      AtLeast(published, feed, feed.taken - 1);
    }
  }

  lemma ShowsSuffix(published: seq<Bytes>, feed: Feed, n: nat)
    requires InOrder(published, feed) && Lossless(published, feed) && n <= feed.taken
    ensures var shown := Shown([R.Snapshot(Initial(published, feed))] + R.AsLive(Sent(published, feed)[..n]));
            shown == Last(Flatten(published[..feed.joined + n]), |shown|)
  {
    hide Shown, R.AsLive, Flatten, Lossless;
    ShownIs(Initial(published, feed), Sent(published, feed)[..n]);
    assert Sent(published, feed)[..n] == Pick(published, feed.accepted)[..n];
    SnapshotThenLiveIsSuffix(published, feed, n);
  }
}
