/** What the two ends do with packets they should not accept, and what follows from it for the rest of the run. */
module ChannelRefusals {
  import opened Base64Url
  import opened Bytes
  import opened PacketCodec
  import opened SecureChannel
  import opened Wrappers

  /** The decoded packet is the number `n`, a nonce and a box that some end sealed as `plain` under this channel, direction and number. */
  ghost predicate OpensAs(log: Log, c: Channel, direction: Direction, decoded: Option<Bytes>, n: Uint32, plain: Plain) {
    exists nonce: Bytes, box: Bytes ::
      && |nonce| == NONCE_BYTES && |box| >= TAG_BYTES && decoded == Some(BigEndian(n) + nonce + box)
      && IsSealed(log, nonce, AAD(c, direction, BigEndian(n)), box, plain)
  }

  predicate IsSealed(log: Log, nonce: Bytes, aad: Bytes, box: Bytes, plain: Plain) {
    Sealing(nonce, aad, box) in log && log[Sealing(nonce, aad, box)] == plain
  }

  lemma UnsealIff(log: Log, c: Channel, direction: Direction, decoded: Option<Bytes>, n: Uint32, plain: Plain)
    ensures Unseal(log, c, direction, Parse(decoded, n)) == Some(plain) <==> OpensAs(log, c, direction, decoded, n, plain)
  {
    hide AAD, BigEndian;
    var p := Parse(decoded, n);
    if Unseal(log, c, direction, p) == Some(plain) {
      ParsedIsWhole(decoded.value, n);
      assert IsSealed(log, p.nonce, AAD(c, direction, BigEndian(n)), p.sealed, plain);
    }
    if OpensAs(log, c, direction, decoded, n, plain) {
      var nonce: Bytes, box: Bytes :| |nonce| == NONCE_BYTES && |box| >= TAG_BYTES && decoded == Some(BigEndian(n) + nonce + box)
        && IsSealed(log, nonce, AAD(c, direction, BigEndian(n)), box, plain);
      WholeParses(n, nonce, box);
    }
  }

  lemma WholeParses(n: Uint32, nonce: Bytes, box: Bytes)
    requires |nonce| == NONCE_BYTES && TAG_BYTES <= |box|
    ensures Parse(Some(BigEndian(n) + nonce + box), n) == Fields(BigEndian(n), nonce, box)
  {
    var bytes := BigEndian(n) + nonce + box;
    SequenceRoundTrip(n);
    hide BigEndian, ReadUint32;
    assert bytes[..4] == BigEndian(n) && bytes[4..16] == nonce && bytes[16..] == box;
  }

  // ---- the connector ---------------------------------------------------------------------------

  /**
    A packet within the limit that reaches an open channel is accepted iff it opens under the number the
    connector expects there and its plaintext is within the limit; it then counts, and nothing else
    changes. Otherwise the channel is closed and has accepted nothing.
  */
  lemma ConnectorAcceptsIff(s: State, c: Channel, packet: string, n: State)
    requires Stepped(s, ToConnector(c, packet), n) && Admitted(packet) && c in s.live && c in s.connectors
    ensures var k := s.connectors[c];
            if plain: Plain :| OpensAs(s.log, c, FromBrowser, GoDecode(packet), k.receiveSeq, plain) && |plain| <= MAX_CONTROL_MESSAGE then
              && n == s.(connectors := s.connectors[c := n.connectors[c]])
              && n.connectors[c] == k.(receiveSeq := n.connectors[c].receiveSeq, accepted := k.accepted + [plain])
              && n.connectors[c].receiveSeq == (if k.receiveSeq == MAX_UINT32 then 0 else k.receiveSeq + 1)
            else n == s.(live := s.live - {c})
  {
    var k := s.connectors[c];
    var plain := Unseal(s.log, c, FromBrowser, ConnectorParse(packet, k.receiveSeq));
    forall p: Plain ensures plain == Some(p) <==> OpensAs(s.log, c, FromBrowser, GoDecode(packet), k.receiveSeq, p) {
      UnsealIff(s.log, c, FromBrowser, GoDecode(packet), k.receiveSeq, p);
    }
    hide OpensAs, Unseal, AAD, BigEndian, GoDecode, ConnectorParse, Admitted;
  }

  /** A packet outside the limits ends the connection: every channel is closed. */
  lemma OversizeEndsConnection(s: State, c: Channel, packet: string, n: State)
    requires Stepped(s, ToConnector(c, packet), n) && (packet == "" || |packet| > MAX_ENCRYPTED_PACKET)
    ensures n == s.(live := {})
  {
    hide Decrypted;
  }

  lemma ClosedStepsQuietly(s: State, a: Action, n: State, c: Channel)
    requires Stepped(s, a, n) && c in s.connectors && c !in s.live
    ensures c in n.connectors && c !in n.live && n.connectors[c] == s.connectors[c]
  {
    hide AAD, BigEndian, EncodePacket, Unseal, Decrypted, Seals, SealedByBrowser, SealedByConnector, BrowserSend, BrowserReceive;
  }

  /** A closed channel stays closed: it accepts nothing and sends nothing for the rest of the run. */
  lemma {:induction false} ClosedForGood(states: seq<State>, actions: seq<Action>, i: nat, j: nat, c: Channel)
    requires IsRun(states, actions) && i <= j < |states| && c in states[i].connectors && c !in states[i].live
    ensures c in states[j].connectors && c !in states[j].live && states[j].connectors[c] == states[i].connectors[c]
    decreases j
  {
    hide Stepped;
    if i < j {
      ClosedForGood(states, actions, i, j - 1, c);
      ClosedStepsQuietly(states[j - 1], actions[j - 1], states[j], c);
    }
  }

  /** The packet is the one the connector expects on the channel, within the limit. */
  ghost predicate Acceptable(s: State, c: Channel, packet: string) {
    c in s.connectors && exists plain: Plain ::
      OpensAs(s.log, c, FromBrowser, GoDecode(packet), s.connectors[c].receiveSeq, plain) && |plain| <= MAX_CONTROL_MESSAGE
  }

  ghost predicate Ends(s: State, a: Action, c: Channel) {
    match a
    case ConnectorCloses(d) => d == c
    case ToConnector(d, packet) => packet == "" || |packet| > MAX_ENCRYPTED_PACKET || (d == c && !Acceptable(s, c, packet))
    case _ => false
  }

  /** A channel opens by being opened, and closes by being closed, refusing a packet, or the end of the connection. */
  lemma StepLive(s: State, a: Action, n: State, c: Channel)
    requires Stepped(s, a, n) && (c in s.live ==> c in s.connectors)
    ensures c in n.live <==> a == ConnectorOpens(c) || (c in s.live && !Ends(s, a, c))
    ensures c in n.live ==> c in n.connectors
  {
    hide OpensAs, AAD, BigEndian, EncodePacket, Unseal, Decrypted, GoDecode, ConnectorParse, Seals, SealedByBrowser, SealedByConnector,
         BrowserSend, BrowserReceive, ConnectorSend, CanSeal;
    if a.ToConnector? && a.c == c && c in s.live && Admitted(a.packet) {
      ConnectorAcceptsIff(s, c, a.packet, n);
    }
  }

  /** The channel was opened before state `j`, and nothing has ended it since. */
  ghost predicate StaysOpen(states: seq<State>, actions: seq<Action>, k: nat, j: nat, c: Channel)
    requires k < j <= |actions| < |states|
  {
    actions[k] == ConnectorOpens(c) && forall m | k < m < j :: !Ends(states[m], actions[m], c)
  }

  lemma {:induction false} OpenIff(states: seq<State>, actions: seq<Action>, j: nat, c: Channel)
    requires IsRun(states, actions) && j < |states|
    ensures c in states[j].live <==> exists k: nat :: k < j && StaysOpen(states, actions, k, j, c)
    ensures c in states[j].live ==> c in states[j].connectors
  {
    hide Stepped, Ends;
    if j > 0 {
      var i := j - 1;
      OpenIff(states, actions, i, c);
      assert Stepped(states[i], actions[i], states[i + 1]);
      StepLive(states[i], actions[i], states[j], c);
      hide IsRun;
      if k: nat :| k < i && StaysOpen(states, actions, k, i, c) {
        assert !Ends(states[i], actions[i], c) ==> StaysOpen(states, actions, k, j, c);
      }
      if k: nat :| k < j && StaysOpen(states, actions, k, j, c) {
        assert k < i ==> StaysOpen(states, actions, k, i, c) && !Ends(states[i], actions[i], c);
      }
      assert actions[i] == ConnectorOpens(c) ==> StaysOpen(states, actions, i, j, c);
    }
  }

  // ---- the browser -----------------------------------------------------------------------------

  /** The browser accepts a packet iff it opens under the number it expects; otherwise the bridge has failed. */
  lemma BrowserAcceptsIff(s: State, c: Channel, packet: string, n: State)
    requires Stepped(s, ToBrowser(c, packet), n) && 0 <= s.browsers[c].receiveSequence <= MAX_UINT32
    ensures var b := s.browsers[c];
            && n == s.(browsers := s.browsers[c := n.browsers[c]])
            && if plain: Plain :| OpensAs(s.log, c, FromConnector, BrowserDecode(packet), b.receiveSequence, plain) then
                 n.browsers[c] == b.(receiveSequence := b.receiveSequence + 1, accepted := b.accepted + [plain])
               else n.browsers[c] == b.(failed := true)
  {
    var b := s.browsers[c];
    var plain := Unseal(s.log, c, FromConnector, BrowserParse(packet, b.receiveSequence));
    forall p: Plain ensures plain == Some(p) <==> OpensAs(s.log, c, FromConnector, BrowserDecode(packet), b.receiveSequence, p) {
      UnsealIff(s.log, c, FromConnector, BrowserDecode(packet), b.receiveSequence, p);
    }
    hide OpensAs, Unseal, AAD, BigEndian, BrowserDecode, BrowserParse;
  }

  /** The bridge can no longer send: it has failed, or its chain is broken. */
  predicate Silent(b: Browser) {
    b.failed || b.broken
  }

  lemma SilentStep(s: State, a: Action, n: State, c: Channel)
    requires Stepped(s, a, n) && c in s.browsers && Silent(s.browsers[c])
    ensures c in n.browsers && Silent(n.browsers[c]) && n.browsers[c].sent == s.browsers[c].sent
    ensures a.BrowserSends? && a.c == c ==> n.log == s.log
  {
    hide AAD, BigEndian, EncodePacket, Unseal, Decrypted, Seals, SealedByBrowser, SealedByConnector;
  }

  /** After a packet that does not open, or a send that threw, the browser never sends on this channel again. */
  lemma {:induction false} SilentForGood(states: seq<State>, actions: seq<Action>, i: nat, j: nat, c: Channel)
    requires IsRun(states, actions) && i <= j < |states| && c in states[i].browsers && Silent(states[i].browsers[c])
    ensures c in states[j].browsers && Silent(states[j].browsers[c]) && states[j].browsers[c].sent == states[i].browsers[c].sent
    decreases j
  {
    hide Stepped, Silent;
    if i < j {
      SilentForGood(states, actions, i, j - 1, c);
      SilentStep(states[j - 1], actions[j - 1], states[j], c);
    }
  }

  /** A browser that is not silent sends exactly while its number is below 2^32 - 1; the send that runs out breaks the chain. */
  lemma SendsIff(b: Browser, plain: Plain)
    requires !Silent(b) && b.sendSequence >= 0
    ensures if b.sendSequence < MAX_UINT32 then BrowserSend(b, plain) == b.(sendSequence := b.sendSequence + 1, sent := b.sent + [plain])
            else BrowserSend(b, plain).sent == b.sent && Silent(BrowserSend(b, plain))
  {
  }
}
