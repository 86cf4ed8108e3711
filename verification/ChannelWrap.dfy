/**
  The bound of 2^32 connector messages is exact: past it the uint32 sequence on the wire repeats while
  the browser's counter does not, and a network that drops the first copy can deliver the later one.
*/
module ChannelWrap {
  import opened Base64Url
  import opened Bytes
  import opened PacketCodec
  import opened SecureChannel

  const NONCE: Bytes := [0, 0, 0, 0, 0, 0, 0, 0, 0, 0, 0, 0]
  const TAG: Bytes := [0, 0, 0, 0, 0, 0, 0, 0, 0, 0, 0, 0, 0, 0, 0, 0]

  /** The first 2^32 messages differ from the later ones. */
  function Body(k: nat): Plain {
    if k < TWO_32 then [0] else [1]
  }

  function KeyOf(c: Channel, k: nat): Sealing {
    Sealing(NONCE, AAD(c, FromConnector, BigEndian(k % TWO_32)), Body(k) + TAG)
  }

  function LogAfter(c: Channel, k: nat): Log {
    if k == 0 then map[] else LogAfter(c, k - 1)[KeyOf(c, k - 1) := Body(k - 1)]
  }

  function Bodies(k: nat): seq<Slot> {
    seq(k, j requires 0 <= j < k => Sent(Body(j)))
  }

  function After(c: Channel, k: nat): State {
    State(LogAfter(c, k), map[c := NEW_BROWSER], map[c := Connector(k % TWO_32, 0, Bodies(k), [])], {c})
  }

  function Send(c: Channel, k: nat): Action {
    ConnectorSends(c, Body(k), NONCE, Body(k) + TAG)
  }

  lemma {:induction false} LogHolds(c: Channel, k: nat)
    ensures forall key | key in LogAfter(c, k) :: key.box == LogAfter(c, k)[key] + TAG
    ensures forall j: nat | j < k :: KeyOf(c, j) in LogAfter(c, k)
  {
    hide AAD, BigEndian;
    if k > 0 {
      LogHolds(c, k - 1);
    }
  }

  lemma TagIsSuffix(a: Plain, b: Plain)
    requires a + TAG == b + TAG
    ensures a == b
  {
    SplitEnd(a, TAG, b, TAG);
  }

  lemma SmallPacket(c: Channel, k: nat)
    ensures |EncodePacket(k % TWO_32, NONCE, Body(k) + TAG)| <= MAX_ENCRYPTED_PACKET
  {
    RoundTrip(BigEndian(k % TWO_32) + NONCE + (Body(k) + TAG));
    hide GoEncode, BigEndian;
  }

  lemma SendSteps(c: Channel, k: nat)
    ensures Stepped(After(c, k), Send(c, k), After(c, k + 1))
  {
    LogHolds(c, k);
    SmallPacket(c, k);
    var s := After(c, k);
    assert Bodies(k + 1) == Bodies(k) + [Sent(Body(k))];
    hide AAD, BigEndian, EncodePacket, Bodies;
    assert SealedByConnector(s, Send(c, k)) == KeyOf(c, k);
    if KeyOf(c, k) in s.log {
      TagIsSuffix(s.log[KeyOf(c, k)], Body(k));
    }
    WrapsTogether(k);
    assert s.connectors[c := After(c, k + 1).connectors[c]] == After(c, k + 1).connectors;
  }

  lemma WrapsTogether(k: nat)
    ensures (k + 1) % TWO_32 == Next(k % TWO_32)
  {
  }

  function Replay(): string {
    EncodePacket(0, NONCE, Body(TWO_32) + TAG)
  }

  lemma LaterPacketIsAccepted(c: Channel, n: nat)
    requires n > TWO_32
    ensures BrowserReceive(LogAfter(c, n), c, NEW_BROWSER, Replay()) == NEW_BROWSER.(receiveSequence := 1, accepted := [[1]])
  {
    LogHolds(c, n);
    PacketRoundTrip(0, NONCE, Body(TWO_32) + TAG, 0);
    hide AAD, BigEndian, EncodePacket, LogAfter, BrowserParse;
    var key := KeyOf(c, TWO_32);
    assert key in LogAfter(c, n);
    TagIsSuffix(LogAfter(c, n)[key], Body(TWO_32));
  }

  lemma {:induction false} FirstEmission(slots: seq<Slot>)
    requires slots != [] && slots[0].Sent?
    ensures Emissions(slots) != [] && Emissions(slots)[0] == slots[0].plain
    decreases |slots|
  {
    if |slots| > 1 {
      FirstEmission(slots[..|slots| - 1]);
    } else {
      assert Emissions(slots[..0]) == [];
    }
  }

  function RunStates(c: Channel, n: nat): seq<State> {
    [INIT, INIT.(browsers := map[c := NEW_BROWSER])] + seq(n + 1, k requires 0 <= k < n + 1 => After(c, k))
  }

  function RunActions(c: Channel, n: nat): seq<Action> {
    [BrowserOpens(c), ConnectorOpens(c)] + seq(n, k requires 0 <= k < n => Send(c, k))
  }

  lemma RunSends(c: Channel, n: nat)
    ensures IsRun(RunStates(c, n), RunActions(c, n)) && RunStates(c, n)[n + 2] == After(c, n)
  {
    var states, actions := RunStates(c, n), RunActions(c, n);
    assert Stepped(states[0], actions[0], states[1]);
    assert Bodies(0) == [];
    assert After(c, 0) == State(map[], map[c := NEW_BROWSER], map[c := NEW_CONNECTOR], {c});
    assert Stepped(states[1], actions[1], states[2]);
    hide Stepped, After, Send;
    forall k | 2 <= k < n + 2 ensures Stepped(states[k], actions[k], states[k + 1]) {
      SendSteps(c, k - 2);
    }
  }

  function Replayed(c: Channel, n: nat): State {
    After(c, n).(browsers := map[c := NEW_BROWSER.(receiveSequence := 1, accepted := [[1]])])
  }

  lemma ReplayStep(c: Channel, n: nat)
    requires n > TWO_32
    ensures Stepped(After(c, n), ToBrowser(c, Replay()), Replayed(c, n))
  {
    hide LogAfter, Replay, BrowserReceive, Bodies;
    LaterPacketIsAccepted(c, n);
    var after := NEW_BROWSER.(receiveSequence := 1, accepted := [[1]]);
    assert map[c := NEW_BROWSER][c := after] == map[c := after];
  }

  /**
    For every number of sends above 2^32 there is a run on a fresh channel in which the browser accepts
    a message that is not the first one sent.
  */
  lemma WrapBreaksPrefix(c: Channel, n: nat) returns (states: seq<State>, actions: seq<Action>)
    requires n > TWO_32
    ensures IsRun(states, actions)
    ensures var s := states[|actions|];
            && c in s.browsers && c in s.connectors && |s.connectors[c].slots| == n
            && s.browsers[c].accepted != [] && !(s.browsers[c].accepted <= Emissions(s.connectors[c].slots))
  {
    hide Replay, Emissions, Stepped, LogAfter, Send;
    RunSends(c, n);
    ReplayStep(c, n);
    FirstEmission(Bodies(n));
    states, actions := RunStates(c, n) + [Replayed(c, n)], RunActions(c, n) + [ToBrowser(c, Replay())];
    forall k | 0 <= k < |actions| ensures Stepped(states[k], actions[k], states[k + 1]) {
      if k < n + 2 {
        assert Stepped(RunStates(c, n)[k], RunActions(c, n)[k], RunStates(c, n)[k + 1]);
      }
    }
  }
}
