/** A PTY session's bounded scrollback and its lossy subscribers (session/session.go). */
module PtySession {
  import opened Bytes

  const MAX_SCROLLBACK: nat := 0x20_0000
  const QUEUE_SLOTS: nat := 256

  /**
    The history of one subscriber: how many chunks were published before it joined, the indices of
    the chunks its channel accepted, and how many of those the reader has taken.
  */
  datatype Feed = Feed(joined: nat, accepted: seq<nat>, taken: nat)

  ghost function Pick(published: seq<Bytes>, indices: seq<nat>): seq<Bytes>
    requires forall k | 0 <= k < |indices| :: indices[k] < |published|
  {
    seq(|indices|, k requires 0 <= k < |indices| => published[indices[k]])
  }

  /** The accepted chunks come after the join, in order, none twice. */
  ghost predicate InOrder(published: seq<Bytes>, feed: Feed) {
    && feed.joined <= |published|
    && feed.taken <= |feed.accepted|
    && (forall k | 0 <= k < |feed.accepted| :: feed.joined <= feed.accepted[k] < |published|)
    && (forall k, l | 0 <= k < l < |feed.accepted| :: feed.accepted[k] < feed.accepted[l])
  }

  ghost predicate QueueHolds(published: seq<Bytes>, feed: Feed, queue: seq<Bytes>)
    requires InOrder(published, feed)
  {
    |queue| <= QUEUE_SLOTS && queue == Pick(published, feed.accepted)[feed.taken..]
  }

  /** The channel has not dropped anything since the join. */
  ghost predicate Lossless(published: seq<Bytes>, feed: Feed) {
    |feed.accepted| == |published| - feed.joined
  }

  ghost function Scrollback(published: seq<Bytes>): Bytes {
    Last(Flatten(published), MAX_SCROLLBACK)
  }

  ghost function Initial(published: seq<Bytes>, feed: Feed): Bytes
    requires feed.joined <= |published|
  {
    Scrollback(published[..feed.joined])
  }

  /** Strictly increasing indices that fill their range are the range. */
  lemma {:induction false} LosslessIndices(published: seq<Bytes>, feed: Feed, k: nat)
    requires InOrder(published, feed) && Lossless(published, feed) && k < |feed.accepted|
    ensures feed.accepted[k] == feed.joined + k
  {
    AtLeast(published, feed, k);
    AtMost(published, feed, k);
  }

  lemma {:induction false} AtLeast(published: seq<Bytes>, feed: Feed, k: nat)
    requires InOrder(published, feed) && k < |feed.accepted|
    ensures feed.joined + k <= feed.accepted[k]
  {
    if k > 0 {
      AtLeast(published, feed, k - 1);
    }
  }

  lemma {:induction false} AtMost(published: seq<Bytes>, feed: Feed, k: nat)
    requires InOrder(published, feed) && k < |feed.accepted|
    ensures feed.accepted[k] <= |published| - |feed.accepted| + k
    decreases |feed.accepted| - k
  {
    if k + 1 < |feed.accepted| {
      AtMost(published, feed, k + 1);
    }
  }

  /** Without a drop, the accepted chunks are everything published since the join. */
  lemma LosslessIsContiguous(published: seq<Bytes>, feed: Feed)
    requires InOrder(published, feed) && Lossless(published, feed)
    ensures Pick(published, feed.accepted) == published[feed.joined..]
  {
    forall k | 0 <= k < |feed.accepted| ensures feed.accepted[k] == feed.joined + k {
      LosslessIndices(published, feed, k);
    }
  }

  /**
    Without a drop, the initial snapshot followed by the first `m` accepted chunks is an end of
    everything the child had written by then: no byte is missing, none is in both parts.
  */
  lemma SnapshotThenLiveIsSuffix(published: seq<Bytes>, feed: Feed, m: nat)
    requires InOrder(published, feed) && Lossless(published, feed) && m <= |feed.accepted|
    ensures var seen := Initial(published, feed) + Flatten(Pick(published, feed.accepted)[..m]);
            seen == Last(Flatten(published[..feed.joined + m]), |seen|)
  {
    LosslessIsContiguous(published, feed);
    var before := published[..feed.joined];
    var live := published[feed.joined..][..m];
    assert published[..feed.joined + m] == before + live;
    FlattenConcat(before, live);
    LastThenMore(Flatten(before), Flatten(live), MAX_SCROLLBACK);
  }

  /** What a publish does to a subscriber whose queue is `queue`: a full channel drops the chunk. */
  ghost function OfferedFeed(feed: Feed, queue: seq<Bytes>, index: nat): Feed {
    if |queue| < QUEUE_SLOTS then feed.(accepted := feed.accepted + [index]) else feed
  }

  function OfferedQueue(queue: seq<Bytes>, data: Bytes): seq<Bytes> {
    if |queue| < QUEUE_SLOTS then queue + [data] else queue
  }

  lemma OfferKeeps(published: seq<Bytes>, data: Bytes, feed: Feed, queue: seq<Bytes>)
    requires InOrder(published, feed) && QueueHolds(published, feed, queue)
    ensures InOrder(published + [data], OfferedFeed(feed, queue, |published|))
    ensures QueueHolds(published + [data], OfferedFeed(feed, queue, |published|), OfferedQueue(queue, data))
  {
    var next := OfferedFeed(feed, queue, |published|);
    assert Pick(published + [data], feed.accepted) == Pick(published, feed.accepted);
    if |queue| < QUEUE_SLOTS {
      assert Pick(published + [data], next.accepted) == Pick(published, feed.accepted) + [data];
    }
  }

  lemma TakeKeeps(published: seq<Bytes>, feed: Feed, queue: seq<Bytes>)
    requires InOrder(published, feed) && QueueHolds(published, feed, queue) && queue != []
    ensures var next := feed.(taken := feed.taken + 1);
            InOrder(published, next) && QueueHolds(published, next, queue[1..])
    ensures queue[0] == Pick(published, feed.accepted)[feed.taken]
  {
  }

  /** A chunk is lost exactly when the channel is full at the moment it is published. */
  lemma OfferLosesIff(published: seq<Bytes>, data: Bytes, feed: Feed, queue: seq<Bytes>)
    requires InOrder(published, feed) && QueueHolds(published, feed, queue)
    ensures Lossless(published + [data], OfferedFeed(feed, queue, |published|)) <==> Lossless(published, feed) && |queue| < QUEUE_SLOTS
  {
    if feed.accepted != [] {
      AtLeast(published, feed, |feed.accepted| - 1);
    }
  }

  // ---- one subscriber over a run ---------------------------------------------------------------

  /** One subscriber's view of a session. */
  datatype Subscriber = Subscriber(published: seq<Bytes>, feed: Feed, queue: seq<Bytes>)

  datatype Event = Publishes(data: Bytes) | Takes

  /** The state right after `Subscribe`. */
  function Joined(published: seq<Bytes>): Subscriber {
    Subscriber(published, Feed(|published|, [], 0), [])
  }

  /** A reader that finds its channel empty waits. */
  ghost function After(s: Subscriber, e: Event): Subscriber {
    match e
    case Publishes(data) =>
      Subscriber(s.published + [data], OfferedFeed(s.feed, s.queue, |s.published|), OfferedQueue(s.queue, data))
    case Takes =>
      if s.queue == [] then s else s.(feed := s.feed.(taken := s.feed.taken + 1), queue := s.queue[1..])
  }

  ghost function RunEvents(s: Subscriber, events: seq<Event>): Subscriber {
    if events == [] then s else After(RunEvents(s, events[..|events| - 1]), events[|events| - 1])
  }

  ghost predicate InStep(s: Subscriber) {
    InOrder(s.published, s.feed) && QueueHolds(s.published, s.feed, s.queue)
  }

  lemma AfterKeeps(s: Subscriber, e: Event)
    requires InStep(s)
    ensures InStep(After(s, e)) && After(s, e).feed.joined == s.feed.joined && s.published <= After(s, e).published
    ensures Lossless(After(s, e).published, After(s, e).feed) <==>
            Lossless(s.published, s.feed) && (e.Publishes? ==> |s.queue| < QUEUE_SLOTS)
  {
    match e
    case Publishes(data) =>
      OfferKeeps(s.published, data, s.feed, s.queue);
      OfferLosesIff(s.published, data, s.feed, s.queue);
    case Takes =>
      if s.queue != [] {
        TakeKeeps(s.published, s.feed, s.queue);
      }
  }

  /** The channel's slots are never all taken when a chunk is published. */
  ghost predicate NeverFull(s: Subscriber, events: seq<Event>) {
    forall k | 0 <= k < |events| && events[k].Publishes? :: |RunEvents(s, events[..k]).queue| < QUEUE_SLOTS
  }

  lemma NeverFullPush(s: Subscriber, events: seq<Event>)
    requires events != []
    ensures var before, last := events[..|events| - 1], events[|events| - 1];
            NeverFull(s, events) <==> NeverFull(s, before) && (last.Publishes? ==> |RunEvents(s, before).queue| < QUEUE_SLOTS)
  {
    var before := events[..|events| - 1];
    assert forall k | 0 <= k < |before| :: before[..k] == events[..k];
    hide RunEvents;
  }

  /** Over any run of publishes and reads: nothing has been dropped iff the channel was never full at a publish. */
  lemma {:induction false} LosslessIffNeverFull(s: Subscriber, events: seq<Event>)
    requires InStep(s) && Lossless(s.published, s.feed)
    ensures var n := RunEvents(s, events);
            && InStep(n) && n.feed.joined == s.feed.joined && s.published <= n.published
            && (Lossless(n.published, n.feed) <==> NeverFull(s, events))
  {
    hide InStep, After, Lossless, NeverFull;
    if events == [] {
      NeverFullAtFirst(s);
    } else {
      LosslessIffNeverFull(s, events[..|events| - 1]);
      NeverFullPush(s, events);
      AfterKeeps(RunEvents(s, events[..|events| - 1]), events[|events| - 1]);
    }
  }

  /** A reader that keeps taking: `m` reads. */
  function Reads(m: nat): seq<Event> {
    if m == 0 then [] else Reads(m - 1) + [Takes]
  }

  lemma ReadMore(s: Subscriber, events: seq<Event>, m: nat)
    requires m > 0
    ensures RunEvents(s, events + Reads(m)) == After(RunEvents(s, events + Reads(m - 1)), Takes)
    ensures NeverFull(s, events + Reads(m - 1)) ==> NeverFull(s, events + Reads(m))
  {
    var shorter := events + Reads(m - 1);
    assert events + Reads(m) == shorter + [Takes];
    assert (shorter + [Takes])[..|shorter|] == shorter;
    NeverFullPush(s, shorter + [Takes]);
    hide NeverFull;
  }

  lemma NoMoreReads(events: seq<Event>)
    ensures events + Reads(0) == events
  {
  }

  /** Each read takes the oldest chunk that is left, until none is. */
  lemma {:induction false} ReadsDrain(s: Subscriber, events: seq<Event>, m: nat)
    ensures var was, n := RunEvents(s, events), RunEvents(s, events + Reads(m));
            var got := if m < |was.queue| then m else |was.queue|;
            n == Subscriber(was.published, was.feed.(taken := was.feed.taken + got), was.queue[got..])
    ensures NeverFull(s, events) ==> NeverFull(s, events + Reads(m))
  {
    hide RunEvents, NeverFull, Reads;
    if m == 0 {
      NoMoreReads(events);
    } else {
      ReadsDrain(s, events, m - 1);
      ReadMore(s, events, m);
    }
  }

  lemma NeverFullAtFirst(s: Subscriber)
    ensures NeverFull(s, [])
  {
  }

  lemma JoinedIsInStep(published: seq<Bytes>)
    ensures InStep(Joined(published)) && Lossless(Joined(published).published, Joined(published).feed)
  {
  }

  // ---- the session -----------------------------------------------------------------------------

  function OfferedQueues(queues: map<nat, seq<Bytes>>, data: Bytes): map<nat, seq<Bytes>> {
    map id | id in queues :: OfferedQueue(queues[id], data)
  }

  ghost function OfferedFeeds(feeds: map<nat, Feed>, queues: map<nat, seq<Bytes>>, index: nat): map<nat, Feed> {
    map id | id in feeds :: if id in queues then OfferedFeed(feeds[id], queues[id], index) else feeds[id]
  }

  ghost predicate FeedsOk(published: seq<Bytes>, feeds: map<nat, Feed>, queues: map<nat, seq<Bytes>>) {
    && queues.Keys <= feeds.Keys
    && (forall id | id in feeds :: InOrder(published, feeds[id]))
    && (forall id | id in queues :: QueueHolds(published, feeds[id], queues[id]))
  }

  /** One publish keeps every subscriber's queue in step with its feed. */
  lemma FanOutKeeps(published: seq<Bytes>, data: Bytes, feeds: map<nat, Feed>, queues: map<nat, seq<Bytes>>)
    requires FeedsOk(published, feeds, queues)
    ensures FeedsOk(published + [data], OfferedFeeds(feeds, queues, |published|), OfferedQueues(queues, data))
  {
    forall id | id in feeds
      ensures InOrder(published + [data], OfferedFeeds(feeds, queues, |published|)[id])
      ensures id in queues ==>
                QueueHolds(published + [data], OfferedFeeds(feeds, queues, |published|)[id], OfferedQueues(queues, data)[id])
    {
      if id in queues {
        OfferKeeps(published, data, feeds[id], queues[id]);
      }
    }
  }

  /** The scrollback after a publish is what the trimming makes of it. */
  lemma ScrollbackPush(published: seq<Bytes>, data: Bytes)
    ensures var longer := Scrollback(published) + data;
            Scrollback(published + [data]) == if |longer| > MAX_SCROLLBACK then longer[|longer| - MAX_SCROLLBACK..] else longer
  {
    hide Flatten;
    FlattenPush(published, data);
    LastOfLast(Flatten(published), data, MAX_SCROLLBACK);
  }

  lemma OfferedIds(feeds: map<nat, Feed>, queues: map<nat, seq<Bytes>>, index: nat)
    ensures OfferedFeeds(feeds, queues, index).Keys == feeds.Keys
  {
  }

  class Session {
    var scrollback: Bytes
    var subscribers: map<nat, seq<Bytes>>
    var nextSubID: nat
    var running: bool

    ghost var published: seq<Bytes>
    ghost var feeds: map<nat, Feed>

    ghost predicate Valid()
      reads this
    {
      && scrollback == Scrollback(published)
      && FeedsOk(published, feeds, subscribers)
      && (forall id | id in feeds :: id < nextSubID)
    }

    constructor ()
      ensures Valid() && published == [] && feeds == map[] && running
    {
      scrollback, subscribers, nextSubID, running := [], map[], 0, true;
      published, feeds := [], map[];
    }

    method Publish(data: Bytes)
      requires Valid()
      modifies this
      ensures Valid() && published == old(published) + [data]
      ensures nextSubID == old(nextSubID) && running == old(running)
      ensures feeds == OfferedFeeds(old(feeds), old(subscribers), |old(published)|)
      ensures subscribers == OfferedQueues(old(subscribers), data)
    {
      hide FeedsOk, Scrollback, OfferedFeeds, OfferedQueues;
      ScrollbackPush(published, data);
      FanOutKeeps(published, data, feeds, subscribers);
      OfferedIds(feeds, subscribers, |published|);
      scrollback := scrollback + data;
      if |scrollback| > MAX_SCROLLBACK {
        scrollback := scrollback[|scrollback| - MAX_SCROLLBACK..];
      }
      FanOut(data);
      feeds := OfferedFeeds(feeds, old(subscribers), |published|);
      published := published + [data];
    }

    /** The send with `default` to every channel, in whatever order the map yields them. */
    method FanOut(data: Bytes)
      modifies this`subscribers
      ensures subscribers == OfferedQueues(old(subscribers), data)
    {
      var pending := subscribers.Keys;
      while pending != {}
        invariant pending <= subscribers.Keys
        invariant subscribers == map id | id in old(subscribers) ::
                    if id in pending then old(subscribers)[id] else OfferedQueue(old(subscribers)[id], data)
      {
        var id :| id in pending;
        if |subscribers[id]| < QUEUE_SLOTS {
          subscribers := subscribers[id := subscribers[id] + [data]];
        }
        pending := pending - {id};
      }
    }

    method Subscribe() returns (id: nat, initial: Bytes)
      requires Valid()
      modifies this
      ensures Valid() && published == old(published) && scrollback == old(scrollback) && running == old(running)
      ensures id !in old(feeds) && feeds == old(feeds)[id := Feed(|published|, [], 0)]
      ensures subscribers == old(subscribers)[id := []]
      ensures initial == Initial(published, feeds[id])
    {
      id := nextSubID;
      nextSubID := nextSubID + 1;
      subscribers := subscribers[id := []];
      initial := scrollback;
      feeds := feeds[id := Feed(|published|, [], 0)];
      assert published[..|published|] == published;
    }

    /** The reader takes the oldest queued chunk. */
    method Receive(id: nat) returns (chunk: Bytes)
      requires Valid() && id in subscribers && subscribers[id] != []
      modifies this
      ensures Valid() && published == old(published) && scrollback == old(scrollback) && running == old(running)
      ensures id in old(feeds) && feeds == old(feeds)[id := old(feeds)[id].(taken := old(feeds)[id].taken + 1)]
      ensures subscribers == old(subscribers)[id := old(subscribers)[id][1..]]
      ensures InOrder(published, old(feeds)[id]) && old(feeds)[id].taken < |old(feeds)[id].accepted|
      ensures chunk == Pick(published, old(feeds)[id].accepted)[old(feeds)[id].taken]
    {
      TakeKeeps(published, feeds[id], subscribers[id]);
      assert feeds[id].taken < |feeds[id].accepted|;
      hide InOrder, QueueHolds;
      chunk := subscribers[id][0];
      subscribers := subscribers[id := subscribers[id][1..]];
      feeds := feeds[id := feeds[id].(taken := feeds[id].taken + 1)];
    }

    method Cancel(id: nat)
      requires Valid()
      modifies this
      ensures Valid() && published == old(published) && feeds == old(feeds) && scrollback == old(scrollback)
      ensures subscribers == old(subscribers) - {id}
    {
      subscribers := subscribers - {id};
    }

    /** The end step of `capture`. */
    method End()
      requires Valid()
      modifies this`running
      ensures Valid() && !running
    {
      running := false;
    }
  }
}
