/** The browser's snapshot/live reconciler (apps/web/src/terminal-reconnect.ts). */
module Reconciler {
  import opened Bytes

  const MAX_TERMINAL_SNAPSHOT_BYTES := 0x20_0000
  const MAX_SAFE_INTEGER := 0x1f_ffff_ffff_ffff

  /** What the terminal socket delivers to the reconciler. */
  datatype Frame = SnapshotStart(bytes: int) | SnapshotEnd | Binary(data: Bytes)

  datatype Action = Snapshot(data: Bytes) | Live(data: Bytes)

  datatype Phase = Awaiting | InSnapshot | IsLive

  datatype Problem = UnexpectedStart | InvalidSize | UnexpectedEnd | Incomplete | Exceeded

  datatype Reply = Nothing | Emit(action: Action) | Throw(problem: Problem)

  datatype Stream = Stream(phase: Phase, expected: int, received: int, chunks: seq<Bytes>)

  const START := Stream(Awaiting, 0, 0, [])

  /** One frame: the new state and what comes out. A rejected frame may leave `received` advanced. */
  function Receive(s: Stream, frame: Frame): (Stream, Reply) {
    match frame
    case SnapshotStart(bytes) =>
      if s.phase != Awaiting then (s, Throw(UnexpectedStart))
      else if !(-MAX_SAFE_INTEGER <= bytes <= MAX_SAFE_INTEGER) || bytes < 0 || bytes > MAX_TERMINAL_SNAPSHOT_BYTES then (s, Throw(InvalidSize))
      else (Stream(InSnapshot, bytes, 0, []), Nothing)
    case SnapshotEnd =>
      if s.phase != InSnapshot then (s, Throw(UnexpectedEnd))
      else if s.received != s.expected then (s, Throw(Incomplete))
      else (s.(phase := IsLive, chunks := []), Emit(Snapshot(Flatten(s.chunks))))
    case Binary(data) =>
      match s.phase
      case Awaiting => (s.(phase := IsLive), Emit(Snapshot(data)))
      case InSnapshot =>
        var counted := s.(received := s.received + |data|);
        if counted.received > s.expected || counted.received > MAX_TERMINAL_SNAPSHOT_BYTES then (counted, Throw(Exceeded))
        else (counted.(chunks := s.chunks + [data]), Nothing)
      case IsLive => (s, Emit(Live(data)))
  }

  /** While a snapshot is open, the counter is the size of the kept chunks, or already past the declared size. */
  predicate Sized(s: Stream) {
    s.phase == InSnapshot ==>
      && 0 <= s.expected <= MAX_TERMINAL_SNAPSHOT_BYTES
      && (s.received == |Flatten(s.chunks)| || s.received > s.expected)
  }

  lemma ReceiveKeepsSized(s: Stream, frame: Frame)
    requires Sized(s)
    ensures Sized(Receive(s, frame).0)
  {
    if frame.Binary? {
      FlattenPush(s.chunks, frame.data);
    }
  }

  // ---- a whole connection ----------------------------------------------------------------------

  datatype Outcome = Outcome(state: Stream, actions: seq<Action>, failed: bool)

  /** Frames in order until one is rejected, with everything emitted on the way. */
  function Feed(s: Stream, frames: seq<Frame>): Outcome
    decreases |frames|
  {
    if frames == [] then Outcome(s, [], false)
    else
      var before := Feed(s, frames[..|frames| - 1]);
      if before.failed then before
      else
        var (next, reply) := Receive(before.state, frames[|frames| - 1]);
        match reply
        case Nothing => Outcome(next, before.actions, false)
        case Emit(action) => Outcome(next, before.actions + [action], false)
        case Throw(_) => Outcome(next, before.actions, true)
  }

  function AsBinary(chunks: seq<Bytes>): seq<Frame> {
    seq(|chunks|, k requires 0 <= k < |chunks| => Binary(chunks[k]))
  }

  function AsLive(chunks: seq<Bytes>): seq<Action> {
    seq(|chunks|, k requires 0 <= k < |chunks| => Live(chunks[k]))
  }

  /** A framed stream: the snapshot split anyhow into `pieces`, then live output. */
  function Framed(pieces: seq<Bytes>, live: seq<Bytes>): seq<Frame> {
    [SnapshotStart(|Flatten(pieces)|)] + AsBinary(pieces) + [SnapshotEnd] + AsBinary(live)
  }

  lemma FeedPush(s: Stream, frames: seq<Frame>, frame: Frame)
    ensures var before := Feed(s, frames);
            Feed(s, frames + [frame]) ==
              if before.failed then before
              else
                var (next, reply) := Receive(before.state, frame);
                match reply
                case Nothing => Outcome(next, before.actions, false)
                case Emit(action) => Outcome(next, before.actions + [action], false)
                case Throw(_) => Outcome(next, before.actions, true)
  {
    assert (frames + [frame])[..|frames|] == frames;
  }

  lemma PrefixIsSmaller(pieces: seq<Bytes>, n: nat)
    requires n <= |pieces|
    ensures |Flatten(pieces[..n])| <= |Flatten(pieces)|
  {
    FlattenConcat(pieces[..n], pieces[n..]);
    assert pieces == pieces[..n] + pieces[n..];
  }

  lemma {:induction false} FeedPieces(pieces: seq<Bytes>, n: nat)
    requires |Flatten(pieces)| <= MAX_TERMINAL_SNAPSHOT_BYTES && n <= |pieces|
    ensures Feed(START, [SnapshotStart(|Flatten(pieces)|)] + AsBinary(pieces[..n])) ==
            Outcome(Stream(InSnapshot, |Flatten(pieces)|, |Flatten(pieces[..n])|, pieces[..n]), [], false)
  {
    hide Receive;
    var first := SnapshotStart(|Flatten(pieces)|);
    if n == 0 {
      FirstFrame(pieces);
      FeedPush(START, [], first);
      assert [first] + AsBinary(pieces[..0]) == [] + [first];
    } else {
      FeedPieces(pieces, n - 1);
      PieceArrives(pieces, n);
      FeedPush(START, [first] + AsBinary(pieces[..n - 1]), Binary(pieces[n - 1]));
      assert [first] + AsBinary(pieces[..n]) == [first] + AsBinary(pieces[..n - 1]) + [Binary(pieces[n - 1])];
    }
  }

  lemma FirstFrame(pieces: seq<Bytes>)
    requires |Flatten(pieces)| <= MAX_TERMINAL_SNAPSHOT_BYTES
    ensures Receive(START, SnapshotStart(|Flatten(pieces)|)) == (Stream(InSnapshot, |Flatten(pieces)|, |Flatten(pieces[..0])|, pieces[..0]), Nothing)
  {
    assert pieces[..0] == [];
  }

  lemma PieceArrives(pieces: seq<Bytes>, n: nat)
    requires |Flatten(pieces)| <= MAX_TERMINAL_SNAPSHOT_BYTES && 0 < n <= |pieces|
    ensures Receive(Stream(InSnapshot, |Flatten(pieces)|, |Flatten(pieces[..n - 1])|, pieces[..n - 1]), Binary(pieces[n - 1])) ==
            (Stream(InSnapshot, |Flatten(pieces)|, |Flatten(pieces[..n])|, pieces[..n]), Nothing)
  {
    assert pieces[..n] == pieces[..n - 1] + [pieces[n - 1]];
    FlattenPush(pieces[..n - 1], pieces[n - 1]);
    PrefixIsSmaller(pieces, n);
  }

  lemma SnapshotEnds(pieces: seq<Bytes>)
    ensures Receive(Stream(InSnapshot, |Flatten(pieces)|, |Flatten(pieces)|, pieces), SnapshotEnd).0.phase == IsLive
    ensures Receive(Stream(InSnapshot, |Flatten(pieces)|, |Flatten(pieces)|, pieces), SnapshotEnd).1 == Emit(Snapshot(Flatten(pieces)))
  {
  }

  lemma LiveArrives(s: Stream, data: Bytes)
    requires s.phase == IsLive
    ensures Receive(s, Binary(data)) == (s, Emit(Live(data)))
  {
  }

  /** Where the frames of a stream stand. */
  lemma FramedParts(pieces: seq<Bytes>, live: seq<Bytes>, n: nat)
    requires n <= |live|
    ensures Framed(pieces, live[..0]) == [SnapshotStart(|Flatten(pieces)|)] + AsBinary(pieces) + [SnapshotEnd]
    ensures AsLive(live[..0]) == []
    ensures n > 0 ==> Framed(pieces, live[..n]) == Framed(pieces, live[..n - 1]) + [Binary(live[n - 1])]
    ensures n > 0 ==> AsLive(live[..n]) == AsLive(live[..n - 1]) + [Live(live[n - 1])]
  {
    hide Flatten;
    assert AsBinary(live[..0]) == [];
    if n > 0 {
      assert AsBinary(live[..n]) == AsBinary(live[..n - 1]) + [Binary(live[n - 1])];
    }
  }

  lemma {:induction false} FeedLive(pieces: seq<Bytes>, live: seq<Bytes>, n: nat)
    requires |Flatten(pieces)| <= MAX_TERMINAL_SNAPSHOT_BYTES && n <= |live|
    ensures var out := Feed(START, Framed(pieces, live[..n]));
            && !out.failed && out.state.phase == IsLive
            && out.actions == [Snapshot(Flatten(pieces))] + AsLive(live[..n])
  {
    hide *;
    FramedParts(pieces, live, n);
    if n == 0 {
      FeedPieces(pieces, |pieces|);
      assert pieces[..|pieces|] == pieces;
      SnapshotEnds(pieces);
      FeedPush(START, [SnapshotStart(|Flatten(pieces)|)] + AsBinary(pieces), SnapshotEnd);
    } else {
      FeedLive(pieces, live, n - 1);
      LiveArrives(Feed(START, Framed(pieces, live[..n - 1])).state, live[n - 1]);
      FeedPush(START, Framed(pieces, live[..n - 1]), Binary(live[n - 1]));
    }
  }

  lemma PrefixInSnapshot(pieces: seq<Bytes>, live: seq<Bytes>, n: nat)
    requires n <= |pieces|
    ensures Framed(pieces, live)[..n + 1] == [SnapshotStart(|Flatten(pieces)|)] + AsBinary(pieces[..n])
  {
    hide Flatten;
  }

  lemma PrefixInLive(pieces: seq<Bytes>, live: seq<Bytes>, n: nat)
    requires n <= |live|
    ensures Framed(pieces, live)[..|pieces| + 2 + n] == Framed(pieces, live[..n])
  {
    hide Flatten;
    var head := [SnapshotStart(|Flatten(pieces)|)] + AsBinary(pieces) + [SnapshotEnd];
    assert |head| == |pieces| + 2 && Framed(pieces, live) == head + AsBinary(live);
    assert AsBinary(live)[..n] == AsBinary(live[..n]);
  }

  /**
    However the snapshot is split, and wherever the connection breaks, the reconciler fed by a framed
    stream never throws; it emits nothing before the end frame, then exactly one snapshot equal to all
    the pieces, then the live chunks unchanged and in order.
  */
  lemma FramedStreamReassembles(pieces: seq<Bytes>, live: seq<Bytes>, cut: nat)
    requires |Flatten(pieces)| <= MAX_TERMINAL_SNAPSHOT_BYTES
    requires cut <= |Framed(pieces, live)|
    ensures var out := Feed(START, Framed(pieces, live)[..cut]);
            && !out.failed
            && out.actions == if cut < |pieces| + 2 then [] else [Snapshot(Flatten(pieces))] + AsLive(live[..cut - |pieces| - 2])
  {
    hide *;
    FramedLength(pieces, live);
    if cut == 0 {
      FeedEmpty(START, Framed(pieces, live)[..0]);
    } else if cut < |pieces| + 2 {
      FeedPieces(pieces, cut - 1);
      PrefixInSnapshot(pieces, live, cut - 1);
    } else {
      FeedLive(pieces, live, cut - |pieces| - 2);
      PrefixInLive(pieces, live, cut - |pieces| - 2);
    }
  }

  lemma FramedLength(pieces: seq<Bytes>, live: seq<Bytes>)
    ensures |Framed(pieces, live)| == |pieces| + 2 + |live|
  {
    hide Flatten;
  }

  lemma FeedEmpty(s: Stream, frames: seq<Frame>)
    requires frames == []
    ensures Feed(s, frames) == Outcome(s, [], false)
  {
  }

  lemma OneMore(chunks: seq<Bytes>, chunk: Bytes)
    ensures AsBinary(chunks + [chunk]) == AsBinary(chunks) + [Binary(chunk)]
    ensures AsLive(chunks + [chunk]) == AsLive(chunks) + [Live(chunk)]
  {
  }

  lemma FirstUnframed(chunk: Bytes)
    ensures AsBinary([]) == [] && AsLive([]) == []
    ensures Receive(START, Binary(chunk)) == (Stream(IsLive, 0, 0, []), Emit(Snapshot(chunk)))
  {
  }

  /** A daemon that does not frame its snapshot: the first binary frame stands for it. */
  lemma {:induction false} UnframedFallback(chunks: seq<Bytes>)
    requires chunks != []
    ensures Feed(START, AsBinary(chunks)) ==
            Outcome(Stream(IsLive, 0, 0, []), [Snapshot(chunks[0])] + AsLive(chunks[1..]), false)
  {
    hide *;
    var n := |chunks| - 1;
    var before, last := chunks[..n], chunks[n];
    assert chunks == before + [last];
    OneMore(before, last);
    FeedPush(START, AsBinary(before), Binary(last));
    if n > 0 {
      UnframedFallback(before);
      assert chunks[1..] == before[1..] + [last];
      OneMore(before[1..], last);
      LiveArrives(Stream(IsLive, 0, 0, []), last);
    } else {
      FirstUnframed(last);
      FeedEmpty(START, []);
      assert chunks[1..] == [];
    }
  }

  // ---- any stream at all -----------------------------------------------------------------------

  /** A stream that began without a start frame: the first frame stood for the snapshot. */
  ghost predicate WasUnframed(frames: seq<Frame>, actions: seq<Action>) {
    exists chunks :: chunks != [] && frames == AsBinary(chunks) && actions == [Snapshot(chunks[0])] + AsLive(chunks[1..])
  }

  /** A stream whose snapshot has arrived: pieces of exactly the declared size between the two control frames. */
  ghost predicate WasFramed(frames: seq<Frame>, actions: seq<Action>) {
    exists pieces, live :: WasFramedAs(frames, actions, pieces, live)
  }

  ghost predicate WasFramedAs(frames: seq<Frame>, actions: seq<Action>, pieces: seq<Bytes>, live: seq<Bytes>) {
    && |Flatten(pieces)| <= MAX_TERMINAL_SNAPSHOT_BYTES && frames == Framed(pieces, live)
    && actions == [Snapshot(Flatten(pieces))] + AsLive(live)
  }

  /** What must have arrived for the reconciler to be in this state with these actions behind it. */
  ghost predicate Explains(frames: seq<Frame>, s: Stream, actions: seq<Action>) {
    match s.phase
    case Awaiting => frames == [] && actions == []
    case InSnapshot =>
      && frames == [SnapshotStart(s.expected)] + AsBinary(s.chunks) && actions == []
      && s.received == |Flatten(s.chunks)| <= s.expected <= MAX_TERMINAL_SNAPSHOT_BYTES
    case IsLive => WasUnframed(frames, actions) || WasFramed(frames, actions)
  }

  /** Which error a frame meets. */
  lemma ErrorsAre(s: Stream, frame: Frame)
    ensures Receive(s, frame).1 == Throw(UnexpectedStart) <==> frame.SnapshotStart? && s.phase != Awaiting
    ensures Receive(s, frame).1 == Throw(InvalidSize) <==>
            frame.SnapshotStart? && s.phase == Awaiting && !(0 <= frame.bytes <= MAX_TERMINAL_SNAPSHOT_BYTES)
    ensures Receive(s, frame).1 == Throw(UnexpectedEnd) <==> frame.SnapshotEnd? && s.phase != InSnapshot
    ensures Receive(s, frame).1 == Throw(Incomplete) <==> frame.SnapshotEnd? && s.phase == InSnapshot && s.received != s.expected
    ensures Receive(s, frame).1 == Throw(Exceeded) <==>
            frame.Binary? && s.phase == InSnapshot
            && (s.received + |frame.data| > s.expected || s.received + |frame.data| > MAX_TERMINAL_SNAPSHOT_BYTES)
  {
  }

  lemma ExplainsBinary(frames: seq<Frame>, s: Stream, actions: seq<Action>, data: Bytes)
    requires Explains(frames, s, actions) && !Receive(s, Binary(data)).1.Throw?
    ensures var (next, reply) := Receive(s, Binary(data));
            Explains(frames + [Binary(data)], next, if reply.Emit? then actions + [reply.action] else actions)
  {
    hide Flatten, WasUnframed, WasFramed;
    match s.phase
    case Awaiting =>
      FirstIsUnframed(data);
      assert frames + [Binary(data)] == [Binary(data)] && actions + [Snapshot(data)] == [Snapshot(data)];
    case InSnapshot =>
      FlattenPush(s.chunks, data);
      OneMore(s.chunks, data);
    case IsLive =>
      if WasUnframed(frames, actions) {
        UnframedGoesOn(frames, actions, data);
      } else {
        FramedGoesOn(frames, actions, data);
      }
  }

  lemma FirstIsUnframed(data: Bytes)
    ensures WasUnframed([Binary(data)], [Snapshot(data)])
  {
    var chunks := [data];
    assert [Binary(data)] == AsBinary(chunks) && [Snapshot(data)] == [Snapshot(chunks[0])] + AsLive(chunks[1..]);
  }

  lemma UnframedGoesOn(frames: seq<Frame>, actions: seq<Action>, data: Bytes)
    requires WasUnframed(frames, actions)
    ensures WasUnframed(frames + [Binary(data)], actions + [Live(data)])
  {
    var chunks :| chunks != [] && frames == AsBinary(chunks) && actions == [Snapshot(chunks[0])] + AsLive(chunks[1..]);
    var longer := chunks + [data];
    OneMore(chunks, data);
    OneMore(chunks[1..], data);
    assert longer[1..] == chunks[1..] + [data] && longer[0] == chunks[0];
    hide AsBinary, AsLive;
    assert longer != [] && frames + [Binary(data)] == AsBinary(longer) && actions + [Live(data)] == [Snapshot(longer[0])] + AsLive(longer[1..]);
  }

  lemma FramedGoesOn(frames: seq<Frame>, actions: seq<Action>, data: Bytes)
    requires WasFramed(frames, actions)
    ensures WasFramed(frames + [Binary(data)], actions + [Live(data)])
  {
    var pieces, live :| WasFramedAs(frames, actions, pieces, live);
    OneMore(live, data);
    hide AsBinary, AsLive, Flatten;
    assert WasFramedAs(frames + [Binary(data)], actions + [Live(data)], pieces, live + [data]);
  }

  lemma ExplainsControl(frames: seq<Frame>, s: Stream, actions: seq<Action>, frame: Frame)
    requires Explains(frames, s, actions) && !frame.Binary? && !Receive(s, frame).1.Throw?
    ensures var (next, reply) := Receive(s, frame);
            Explains(frames + [frame], next, if reply.Emit? then actions + [reply.action] else actions)
  {
    match frame
    case SnapshotStart(bytes) =>
      assert frames + [frame] == [frame] + AsBinary([]);
    case SnapshotEnd =>
      hide Flatten;
      FirstUnframed([]);
      assert frames + [SnapshotEnd] == Framed(s.chunks, []);
      assert WasFramedAs(frames + [SnapshotEnd], actions + [Snapshot(Flatten(s.chunks))], s.chunks, []);
  }

  /**
    Whatever frames arrive: as long as none is rejected, the reconciler has shown nothing while a
    snapshot is under way, and otherwise exactly one snapshot, which is the first frame of an unframed
    stream or pieces of exactly the declared size, and then the frames after it, in order.
  */
  lemma {:induction false} OnlyWholeSnapshots(frames: seq<Frame>)
    ensures var out := Feed(START, frames);
            !out.failed ==> Explains(frames, out.state, out.actions)
  {
    hide Receive, Explains;
    if frames == [] {
      NothingExplains();
    } else {
      var before, frame := frames[..|frames| - 1], frames[|frames| - 1];
      assert frames == before + [frame];
      OnlyWholeSnapshots(before);
      FeedPush(START, before, frame);
      var out := Feed(START, before);
      if !Feed(START, frames).failed {
        if frame.Binary? {
          ExplainsBinary(before, out.state, out.actions, frame.data);
        } else {
          ExplainsControl(before, out.state, out.actions, frame);
        }
      }
    }
  }

  lemma NothingExplains()
    ensures Explains([], START, [])
  {
  }

  // ---- the class -------------------------------------------------------------------------------

  class TerminalStreamReconciler {
    var phase: Phase
    var expectedBytes: int
    var receivedBytes: int
    var chunks: seq<Bytes>

    function State(): Stream
      reads this
    {
      Stream(phase, expectedBytes, receivedBytes, chunks)
    }

    constructor ()
      ensures State() == START && Sized(State())
    {
      phase, expectedBytes, receivedBytes, chunks := Awaiting, 0, 0, [];
    }

    method ReceiveControl(frame: Frame) returns (reply: Reply)
      requires Sized(State()) && !frame.Binary?
      modifies this
      ensures (State(), reply) == Receive(old(State()), frame)
      ensures Sized(State())
    {
      ReceiveKeepsSized(State(), frame);
      if frame.SnapshotStart? {
        if phase != Awaiting {
          return Throw(UnexpectedStart);
        }
        if !(-MAX_SAFE_INTEGER <= frame.bytes <= MAX_SAFE_INTEGER) || frame.bytes < 0 || frame.bytes > MAX_TERMINAL_SNAPSHOT_BYTES {
          return Throw(InvalidSize);
        }
        phase, expectedBytes, receivedBytes, chunks := InSnapshot, frame.bytes, 0, [];
        return Nothing;
      }
      if phase != InSnapshot {
        return Throw(UnexpectedEnd);
      }
      if receivedBytes != expectedBytes {
        return Throw(Incomplete);
      }
      var snapshot := Assemble();
      chunks := [];
      phase := IsLive;
      reply := Emit(Snapshot(snapshot[..]));
    }

    /** Copies the chunks into a buffer of `receivedBytes` bytes, each at its offset; none runs over the end. */
    method Assemble() returns (snapshot: array<Byte>)
      requires receivedBytes == |Flatten(chunks)|
      ensures fresh(snapshot) && snapshot[..] == Flatten(chunks)
    {
      hide Flatten;
      FlattenNothing();
      snapshot := new Byte[receivedBytes](_ => 0);
      var offset, index := 0, 0;
      while index < |chunks|
        invariant index <= |chunks|
        invariant offset == |Flatten(chunks[..index])| <= snapshot.Length == receivedBytes
        invariant snapshot[..offset] == Flatten(chunks[..index])
      {
        var chunk := chunks[index];
        assert chunks[..index + 1] == chunks[..index] + [chunk];
        FlattenPush(chunks[..index], chunk);
        PrefixIsSmaller(chunks, index + 1);
        forall k | 0 <= k < |chunk| {
          snapshot[offset + k] := chunk[k];
        }
        assert snapshot[..offset + |chunk|] == snapshot[..offset] + chunk;
        offset := offset + |chunk|;
        index := index + 1;
      }
      assert chunks[..|chunks|] == chunks;
    }

    method ReceiveBinary(data: Bytes) returns (reply: Reply)
      requires Sized(State())
      modifies this
      ensures (State(), reply) == Receive(old(State()), Binary(data))
      ensures Sized(State())
    {
      ReceiveKeepsSized(State(), Binary(data));
      if phase == Awaiting {
        phase := IsLive;
        return Emit(Snapshot(data));
      }
      if phase == InSnapshot {
        receivedBytes := receivedBytes + |data|;
        if receivedBytes > expectedBytes || receivedBytes > MAX_TERMINAL_SNAPSHOT_BYTES {
          return Throw(Exceeded);
        }
        chunks := chunks + [data];
        return Nothing;
      }
      reply := Emit(Live(data));
    }
  }
}
