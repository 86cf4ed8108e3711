/**
  The encrypted channels between browsers and the connector (`EncryptedBridge` in web/src/main.ts,
  `sendEncrypted` and `handleEncrypted` in cloud/connector.go), over a network that may drop, reorder,
  replay, forge and cross-deliver.

  AES-GCM is an ideal box (the interface of section 2 of RFC 5116): opening succeeds only on a
  nonce, AAD and ciphertext that some end sealed and sent. Channel ids are never reused.
*/
module SecureChannel {
  import opened Base64Url
  import opened Bytes
  import opened PacketCodec
  import opened Wrappers

  type Channel = Bytes
  type Plain = Bytes

  const MAX_CONTROL_MESSAGE := 0x70_0000
  const TWO_32: int := 0x1_0000_0000

  datatype Sealing = Sealing(nonce: Bytes, aad: Bytes, box: Bytes)

  /** Everything sealed and sent under the shared key. */
  type Log = map<Sealing, Plain>

  function Open(log: Log, nonce: Bytes, aad: Bytes, box: Bytes): Option<Plain> {
    if Sealing(nonce, aad, box) in log then Some(log[Sealing(nonce, aad, box)]) else None
  }

  // ---- the two ends ----------------------------------------------------------------------------

  /** The browser's counters are JavaScript numbers. A send that throws breaks the chain for good. */
  datatype Browser = Browser(sendSequence: int, receiveSequence: int, broken: bool, failed: bool,
                             sent: seq<Plain>, accepted: seq<Plain>)

  /** A sequence number the connector used up: a packet went out, or was too large to go. */
  datatype Slot = Sent(plain: Plain) | Skipped

  /** The connector's counters are uint32 and wrap. */
  datatype Connector = Connector(sendSeq: Uint32, receiveSeq: Uint32, slots: seq<Slot>, accepted: seq<Plain>)

  const NEW_BROWSER := Browser(0, 0, false, false, [], [])
  const NEW_CONNECTOR := Connector(0, 0, [], [])

  function Next(n: Uint32): Uint32 {
    if n == MAX_UINT32 then 0 else n + 1
  }

  predicate CanSeal(b: Browser) {
    !b.broken && !b.failed && 0 <= b.sendSequence < MAX_UINT32
  }

  function BrowserSend(b: Browser, plain: Plain): Browser {
    if b.broken then b
    else if b.failed then b.(broken := true)
    else if CanSeal(b) then b.(sendSequence := b.sendSequence + 1, sent := b.sent + [plain])
    else b.(sendSequence := b.sendSequence + 1, broken := true)
  }

  function ConnectorSend(k: Connector, plain: Plain, packet: string): Connector {
    k.(sendSeq := Next(k.sendSeq), slots := k.slots + [if |packet| > MAX_ENCRYPTED_PACKET then Skipped else Sent(plain)])
  }

  function Unseal(log: Log, c: Channel, direction: Direction, parsed: Parsed): Option<Plain> {
    if parsed.Fields? then Open(log, parsed.nonce, AAD(c, direction, parsed.sequence), parsed.sealed) else None
  }

  function Decrypted(log: Log, c: Channel, k: Connector, packet: string): Option<Plain> {
    var plain := Unseal(log, c, FromBrowser, ConnectorParse(packet, k.receiveSeq));
    if plain.Some? && |plain.value| > MAX_CONTROL_MESSAGE then None else plain
  }

  /** What `readRelay` takes from the relay: anything else ends the whole connection. */
  predicate Admitted(packet: string) {
    0 < |packet| <= MAX_ENCRYPTED_PACKET
  }

  function ConnectorAccept(k: Connector, plain: Plain): Connector {
    k.(receiveSeq := Next(k.receiveSeq), accepted := k.accepted + [plain])
  }

  /** A packet that does not decrypt fails the bridge; later ones are still looked at. */
  function BrowserReceive(log: Log, c: Channel, b: Browser, packet: string): Browser {
    match Unseal(log, c, FromConnector, BrowserParse(packet, b.receiveSequence))
    case None => b.(failed := true)
    case Some(plain) => b.(receiveSequence := b.receiveSequence + 1, accepted := b.accepted + [plain])
  }

  // ---- steps -----------------------------------------------------------------------------------

  datatype State = State(log: Log, browsers: map<Channel, Browser>, connectors: map<Channel, Connector>, live: set<Channel>)

  const INIT := State(map[], map[], map[], {})

  datatype Action =
    | BrowserOpens(c: Channel)
    | ConnectorOpens(c: Channel)
    | BrowserSends(c: Channel, plain: Plain, nonce: Bytes, box: Bytes)
    | BrowserFails(c: Channel)
    | ConnectorSends(c: Channel, plain: Plain, nonce: Bytes, box: Bytes)
    | ConnectorCloses(c: Channel)
    | ToConnector(c: Channel, packet: string)
    | ToBrowser(c: Channel, packet: string)

  function SealedByBrowser(s: State, a: Action): Sealing
    requires a.BrowserSends? && a.c in s.browsers && CanSeal(s.browsers[a.c])
  {
    Sealing(a.nonce, AAD(a.c, FromBrowser, BigEndian(s.browsers[a.c].sendSequence)), a.box)
  }

  function SealedByConnector(s: State, a: Action): Sealing
    requires a.ConnectorSends? && a.c in s.connectors
  {
    Sealing(a.nonce, AAD(a.c, FromConnector, BigEndian(s.connectors[a.c].sendSeq)), a.box)
  }

  /** A ciphertext stands for one plaintext under its nonce and AAD. */
  predicate Seals(log: Log, key: Sealing, plain: Plain) {
    && |key.nonce| == NONCE_BYTES && |key.box| == |plain| + TAG_BYTES
    && (key in log ==> log[key] == plain)
  }

  ghost predicate Enabled(s: State, a: Action) {
    match a
    case BrowserOpens(c) => c !in s.browsers
    case ConnectorOpens(c) => c !in s.connectors
    case BrowserSends(c, plain, nonce, box) =>
      c in s.browsers && (CanSeal(s.browsers[c]) ==> Seals(s.log, SealedByBrowser(s, a), plain))
    case ConnectorSends(c, plain, nonce, box) =>
      c in s.connectors && c in s.live && Seals(s.log, SealedByConnector(s, a), plain)
    case BrowserFails(c) => c in s.browsers
    case ToBrowser(c, packet) => c in s.browsers
    case _ => true
  }

  /** What the adversary sees of a send: nothing when the packet was too large. */
  function ConnectorPacket(s: State, a: Action): string
    requires a.ConnectorSends? && a.c in s.connectors
  {
    EncodePacket(s.connectors[a.c].sendSeq, a.nonce, a.box)
  }

  function Apply(s: State, a: Action): State
    requires Enabled(s, a)
  {
    match a
    case BrowserOpens(c) => s.(browsers := s.browsers[c := NEW_BROWSER])
    case ConnectorOpens(c) => s.(connectors := s.connectors[c := NEW_CONNECTOR], live := s.live + {c})
    case BrowserSends(c, plain, _, _) =>
      var b := s.browsers[c];
      s.(log := if CanSeal(b) then s.log[SealedByBrowser(s, a) := plain] else s.log,
         browsers := s.browsers[c := BrowserSend(b, plain)])
    case BrowserFails(c) => s.(browsers := s.browsers[c := s.browsers[c].(failed := true)])
    case ConnectorSends(c, plain, _, _) =>
      var packet := ConnectorPacket(s, a);
      s.(log := if |packet| > MAX_ENCRYPTED_PACKET then s.log else s.log[SealedByConnector(s, a) := plain],
         connectors := s.connectors[c := ConnectorSend(s.connectors[c], plain, packet)])
    case ConnectorCloses(c) => s.(live := s.live - {c})
    case ToConnector(c, packet) =>
      if !Admitted(packet) then s.(live := {})
      else if c !in s.live || c !in s.connectors then s
      else
        var plain := Decrypted(s.log, c, s.connectors[c], packet);
        if plain.None? then s.(live := s.live - {c})
        else s.(connectors := s.connectors[c := ConnectorAccept(s.connectors[c], plain.value)])
    case ToBrowser(c, packet) => s.(browsers := s.browsers[c := BrowserReceive(s.log, c, s.browsers[c], packet)])
  }

  ghost predicate Stepped(s: State, a: Action, n: State) {
    Enabled(s, a) && n == Apply(s, a)
  }

  ghost predicate IsRun(states: seq<State>, actions: seq<Action>) {
    && |states| == |actions| + 1 && states[0] == INIT
    && forall k | 0 <= k < |actions| :: Stepped(states[k], actions[k], states[k + 1])
  }

  // ---- invariant -------------------------------------------------------------------------------

  /** The `k`-th message the browser of channel `c` sealed. */
  ghost predicate FromThisBrowser(s: State, key: Sealing, c: Channel, k: nat) {
    && c in s.browsers && key in s.log && k < |s.browsers[c].sent| && k <= MAX_UINT32
    && s.browsers[c].sent[k] == s.log[key] && key.aad == AAD(c, FromBrowser, BigEndian(k))
  }

  /** The `k`-th number the connector used on channel `c`; its wire form has wrapped. */
  ghost predicate FromThisConnector(s: State, key: Sealing, c: Channel, k: nat) {
    && c in s.connectors && key in s.log && k < |s.connectors[c].slots|
    && s.connectors[c].slots[k] == Sent(s.log[key]) && key.aad == AAD(c, FromConnector, BigEndian(k % TWO_32))
  }

  ghost predicate HasOrigin(s: State, key: Sealing) {
    || (exists c, k: nat :: FromThisBrowser(s, key, c, k))
    || (exists c, k: nat :: FromThisConnector(s, key, c, k))
  }

  ghost predicate LogOk(s: State) {
    forall key | key in s.log :: HasOrigin(s, key)
  }

  ghost predicate CountersOk(s: State) {
    && (forall c | c in s.browsers ::
          var b := s.browsers[c];
          && |b.sent| <= MAX_UINT32 && b.receiveSequence == |b.accepted|
          && (!b.broken ==> b.sendSequence == |b.sent|))
    && (forall c | c in s.connectors ::
          s.connectors[c].sendSeq == |s.connectors[c].slots| % TWO_32 && s.connectors[c].receiveSeq == |s.connectors[c].accepted|)
  }

  /** What the connector accepted on `c` is a prefix of what the browser sent there. */
  ghost predicate ConnectorPrefix(s: State, c: Channel) {
    c in s.connectors && s.connectors[c].accepted != [] ==>
      c in s.browsers && s.connectors[c].accepted <= s.browsers[c].sent
  }

  /** The `k`-th accepted message came out of a slot whose wire number is `k`. */
  ghost predicate SlotOf(s: State, c: Channel, k: nat, from: nat) {
    && c in s.connectors && c in s.browsers && k < |s.browsers[c].accepted|
    && from < |s.connectors[c].slots| && from % TWO_32 == k
    && s.connectors[c].slots[from] == Sent(s.browsers[c].accepted[k])
  }

  ghost predicate HasSlot(s: State, c: Channel, k: nat) {
    exists from: nat :: SlotOf(s, c, k, from)
  }

  ghost predicate BrowserSlots(s: State, c: Channel) {
    c in s.browsers ==> forall k: nat | k < |s.browsers[c].accepted| :: HasSlot(s, c, k)
  }

  ghost predicate Inv(s: State) {
    LogOk(s) && CountersOk(s) && (forall c :: ConnectorPrefix(s, c)) && (forall c :: BrowserSlots(s, c))
  }

  // ---- what a step keeps -----------------------------------------------------------------------

  ghost predicate LogGrows(s: State, n: State) {
    forall key | key in s.log :: key in n.log && n.log[key] == s.log[key]
  }

  ghost predicate BrowsersGrow(s: State, n: State) {
    forall c | c in s.browsers :: c in n.browsers && s.browsers[c].sent <= n.browsers[c].sent
                                  && s.browsers[c].accepted <= n.browsers[c].accepted
  }

  ghost predicate ConnectorsGrow(s: State, n: State) {
    forall c | c in s.connectors :: c in n.connectors && s.connectors[c].slots <= n.connectors[c].slots
                                    && s.connectors[c].accepted <= n.connectors[c].accepted
  }

  /** Nothing sealed, sent or numbered is ever taken back. */
  ghost predicate Grows(s: State, n: State) {
    LogGrows(s, n) && BrowsersGrow(s, n) && ConnectorsGrow(s, n)
  }

  lemma StepGrowsLog(s: State, a: Action, n: State)
    requires Stepped(s, a, n)
    ensures LogGrows(s, n)
  {
    hide AAD, BigEndian, EncodePacket, Unseal, Decrypted, BrowserSend, BrowserReceive;
  }

  lemma StepGrowsBrowsers(s: State, a: Action, n: State)
    requires Stepped(s, a, n)
    ensures BrowsersGrow(s, n)
  {
    hide AAD, BigEndian, EncodePacket, Unseal, Decrypted, Seals, SealedByBrowser, SealedByConnector;
  }

  lemma StepGrowsConnectors(s: State, a: Action, n: State)
    requires Stepped(s, a, n)
    ensures ConnectorsGrow(s, n)
  {
    hide AAD, BigEndian, EncodePacket, Unseal, Decrypted, Seals, SealedByBrowser, SealedByConnector, BrowserSend, BrowserReceive;
  }

  lemma StepGrows(s: State, a: Action, n: State)
    requires Stepped(s, a, n)
    ensures Grows(s, n)
  {
    hide Stepped, LogGrows, BrowsersGrow, ConnectorsGrow;
    StepGrowsLog(s, a, n);
    StepGrowsBrowsers(s, a, n);
    StepGrowsConnectors(s, a, n);
  }

  lemma OriginStays(s: State, n: State, key: Sealing)
    requires Grows(s, n) && HasOrigin(s, key)
    ensures HasOrigin(n, key)
  {
    hide AAD, BigEndian;
    if c, k: nat :| FromThisBrowser(s, key, c, k) {
      assert FromThisBrowser(n, key, c, k);
    } else {
      var c, k: nat :| FromThisConnector(s, key, c, k);
      assert FromThisConnector(n, key, c, k);
    }
  }

  lemma StepKeepsLog(s: State, a: Action, n: State)
    requires LogOk(s) && CountersOk(s) && Stepped(s, a, n)
    ensures LogOk(n)
  {
    StepGrows(s, a, n);
    forall key | key in n.log ensures HasOrigin(n, key) {
      if key in s.log {
        OriginStays(s, n, key);
      } else {
        NewEntryHasOrigin(s, a, n, key);
      }
    }
  }

  lemma NewEntryHasOrigin(s: State, a: Action, n: State, key: Sealing)
    requires CountersOk(s) && Stepped(s, a, n) && key in n.log && key !in s.log
    ensures HasOrigin(n, key)
  {
    hide AAD, BigEndian, EncodePacket, Unseal, Decrypted;
    if a.BrowserSends? {
      assert FromThisBrowser(n, key, a.c, |s.browsers[a.c].sent|);
    } else {
      assert FromThisConnector(n, key, a.c, |s.connectors[a.c].slots|);
    }
  }

  /** An entry under the AAD of a channel, direction and number was sealed by that end at that number. */
  lemma OriginOf(s: State, key: Sealing, c: Channel, direction: Direction, n: Uint32)
    requires HasOrigin(s, key) && CountersOk(s) && key.aad == AAD(c, direction, BigEndian(n))
    ensures direction == FromBrowser ==> FromThisBrowser(s, key, c, n)
    ensures direction == FromConnector ==> exists from: nat :: from % TWO_32 == n && FromThisConnector(s, key, c, from)
  {
    hide AAD, BigEndian, CountersOk;
    SequenceRoundTrip(n);
    if c2, k: nat :| FromThisBrowser(s, key, c2, k) {
      AADInjective(c, direction, BigEndian(n), c2, FromBrowser, BigEndian(k));
      SequenceRoundTrip(k);
    } else {
      var c2, k: nat :| FromThisConnector(s, key, c2, k);
      AADInjective(c, direction, BigEndian(n), c2, FromConnector, BigEndian(k % TWO_32));
      SequenceRoundTrip(k % TWO_32);
    }
  }

  lemma UnsealedFrom(s: State, c: Channel, direction: Direction, decoded: Option<Bytes>, n: int)
    requires LogOk(s) && CountersOk(s) && Unseal(s.log, c, direction, Parse(decoded, n)).Some?
    ensures 0 <= n <= MAX_UINT32
    ensures exists key :: key in s.log && s.log[key] == Unseal(s.log, c, direction, Parse(decoded, n)).value
                          && key.aad == AAD(c, direction, BigEndian(n))
  {
    hide AAD, BigEndian, LogOk, CountersOk;
    ParsedIsWhole(decoded.value, n);
    var p := Parse(decoded, n);
    var key := Sealing(p.nonce, AAD(c, direction, p.sequence), p.sealed);
    assert key in s.log && key.aad == AAD(c, direction, BigEndian(n));
  }

  /** The connector can only accept the next message the browser of that channel sent. */
  lemma ConnectorAcceptsNext(s: State, c: Channel, packet: string)
    requires LogOk(s) && CountersOk(s) && c in s.connectors
    requires Decrypted(s.log, c, s.connectors[c], packet).Some?
    ensures var k := |s.connectors[c].accepted|;
            && c in s.browsers && k < |s.browsers[c].sent| <= MAX_UINT32
            && Decrypted(s.log, c, s.connectors[c], packet).value == s.browsers[c].sent[k]
  {
    var k := s.connectors[c].receiveSeq;
    UnsealedFrom(s, c, FromBrowser, GoDecode(packet), k);
    var key :| key in s.log && key.aad == AAD(c, FromBrowser, BigEndian(k))
               && s.log[key] == Unseal(s.log, c, FromBrowser, ConnectorParse(packet, k)).value;
    OriginOf(s, key, c, FromBrowser, k);
  }

  /** The browser can only accept a message whose number on the wire is the one it expects. */
  lemma BrowserAcceptsNumbered(s: State, c: Channel, packet: string)
    requires LogOk(s) && CountersOk(s) && c in s.browsers
    requires Unseal(s.log, c, FromConnector, BrowserParse(packet, s.browsers[c].receiveSequence)).Some?
    ensures var plain := Unseal(s.log, c, FromConnector, BrowserParse(packet, s.browsers[c].receiveSequence)).value;
            && c in s.connectors
            && exists from: nat :: from < |s.connectors[c].slots| && from % TWO_32 == |s.browsers[c].accepted|
                                   && s.connectors[c].slots[from] == Sent(plain)
  {
    var k := s.browsers[c].receiveSequence;
    UnsealedFrom(s, c, FromConnector, BrowserDecode(packet), k);
    var key :| key in s.log && key.aad == AAD(c, FromConnector, BigEndian(k))
               && s.log[key] == Unseal(s.log, c, FromConnector, BrowserParse(packet, k)).value;
    OriginOf(s, key, c, FromConnector, k);
  }

  lemma StepKeepsCounters(s: State, a: Action, n: State)
    requires LogOk(s) && CountersOk(s) && Stepped(s, a, n)
    ensures CountersOk(n)
  {
    hide LogOk, AAD, BigEndian, EncodePacket, Unseal, Decrypted, Seals, SealedByBrowser, SealedByConnector, Admitted, BrowserReceive,
         BrowserSend, ConnectorSend, CanSeal, BrowserParse, ConnectorParse;
    match a {
      case BrowserSends(c, plain, _, _) => SendCounts(s.browsers[c], plain);
      case ConnectorSends(c, plain, _, _) => SlotCounts(s.connectors[c], plain, ConnectorPacket(s, a));
      case ToConnector(c, packet) =>
        if c in s.live && c in s.connectors && Decrypted(s.log, c, s.connectors[c], packet).Some? {
          ConnectorAcceptsNext(s, c, packet);
        }
      case ToBrowser(c, packet) => ReceiveCounts(s.log, c, s.browsers[c], packet);
      case _ =>
    }
  }

  lemma SendCounts(b: Browser, plain: Plain)
    requires |b.sent| <= MAX_UINT32 && (!b.broken ==> b.sendSequence == |b.sent|)
    ensures var n := BrowserSend(b, plain);
            && |n.sent| <= MAX_UINT32 && (!n.broken ==> n.sendSequence == |n.sent|)
            && n.accepted == b.accepted && n.receiveSequence == b.receiveSequence
  {
  }

  lemma SlotCounts(k: Connector, plain: Plain, packet: string)
    requires k.sendSeq == |k.slots| % TWO_32
    ensures var n := ConnectorSend(k, plain, packet);
            n.sendSeq == |n.slots| % TWO_32 && n.accepted == k.accepted && n.receiveSeq == k.receiveSeq
  {
  }

  lemma ReceiveCounts(log: Log, c: Channel, b: Browser, packet: string)
    requires b.receiveSequence == |b.accepted|
    ensures var n := BrowserReceive(log, c, b, packet);
            n.receiveSequence == |n.accepted| && n.sent == b.sent && n.broken == b.broken && n.sendSequence == b.sendSequence
  {
    hide Unseal, BrowserParse;
  }

  lemma StepKeepsConnector(s: State, a: Action, n: State, c: Channel)
    requires LogOk(s) && CountersOk(s) && ConnectorPrefix(s, c) && Stepped(s, a, n)
    ensures ConnectorPrefix(n, c)
  {
    hide LogOk, AAD, BigEndian, EncodePacket, Unseal, Decrypted;
    if a.ToConnector? && a.c == c && c in s.live && c in s.connectors && Decrypted(s.log, c, s.connectors[c], a.packet).Some? {
      ConnectorAcceptsNext(s, c, a.packet);
    }
  }

  lemma SlotStays(s: State, n: State, c: Channel, k: nat)
    requires Grows(s, n) && HasSlot(s, c, k)
    ensures HasSlot(n, c, k)
  {
    var from: nat :| SlotOf(s, c, k, from);
    assert SlotOf(n, c, k, from);
  }

  lemma NewSlot(s: State, a: Action, n: State, c: Channel)
    requires LogOk(s) && CountersOk(s) && Stepped(s, a, n) && c in n.browsers
    ensures if c in s.browsers then n.browsers[c].accepted == s.browsers[c].accepted || HasSlot(n, c, |s.browsers[c].accepted|)
            else n.browsers[c].accepted == []
    ensures c in s.browsers ==> |n.browsers[c].accepted| <= |s.browsers[c].accepted| + 1
  {
    hide LogOk, AAD, BigEndian, EncodePacket, Unseal, Decrypted;
    if c in s.browsers && n.browsers[c].accepted != s.browsers[c].accepted {
      BrowserAcceptsNumbered(s, c, a.packet);
      var k := |s.browsers[c].accepted|;
      var from: nat :| from < |s.connectors[c].slots| && from % TWO_32 == k && s.connectors[c].slots[from] == Sent(n.browsers[c].accepted[k]);
      assert SlotOf(n, c, k, from);
    }
  }

  lemma StepKeepsBrowser(s: State, a: Action, n: State, c: Channel)
    requires LogOk(s) && CountersOk(s) && BrowserSlots(s, c) && Stepped(s, a, n)
    ensures BrowserSlots(n, c)
  {
    hide LogOk, CountersOk, Stepped, HasSlot, Grows;
    StepGrows(s, a, n);
    if c in n.browsers {
      NewSlot(s, a, n, c);
      forall k: nat | k < |n.browsers[c].accepted| ensures HasSlot(n, c, k) {
        if c in s.browsers && k < |s.browsers[c].accepted| {
          SlotStays(s, n, c, k);
        }
      }
    }
  }

  lemma StepKeeps(s: State, a: Action, n: State)
    requires Inv(s) && Stepped(s, a, n)
    ensures Inv(n)
  {
    hide LogOk, CountersOk, ConnectorPrefix, BrowserSlots, Stepped;
    StepKeepsLog(s, a, n);
    StepKeepsCounters(s, a, n);
    forall c ensures ConnectorPrefix(n, c) && BrowserSlots(n, c) {
      assert ConnectorPrefix(s, c) && BrowserSlots(s, c);
      StepKeepsConnector(s, a, n, c);
      StepKeepsBrowser(s, a, n, c);
    }
  }

  lemma {:induction false} AlwaysInv(states: seq<State>, actions: seq<Action>, i: nat)
    requires IsRun(states, actions) && i < |states|
    ensures Inv(states[i])
  {
    if i > 0 {
      AlwaysInv(states, actions, i - 1);
      hide Inv, Stepped;
      StepKeeps(states[i - 1], actions[i - 1], states[i]);
    }
  }

  // ---- main results ----------------------------------------------------------------------------

  /**
    Towards the connector: whatever the network does, the accepted messages are a prefix of what that
    channel's browser sent, and the uint32 receive counter is their number: it never wraps.
  */
  lemma ConnectorAcceptsPrefix(states: seq<State>, actions: seq<Action>, i: nat, c: Channel)
    requires IsRun(states, actions) && i < |states| && c in states[i].connectors
    ensures var k := states[i].connectors[c];
            && k.receiveSeq == |k.accepted| < MAX_UINT32 + 1
            && (k.accepted != [] ==> c in states[i].browsers && k.accepted <= states[i].browsers[c].sent)
  {
    AlwaysInv(states, actions, i);
    assert ConnectorPrefix(states[i], c);
  }

  /** The messages that left, in order. */
  function Emissions(slots: seq<Slot>): seq<Plain> {
    if slots == [] then []
    else
      var before := Emissions(slots[..|slots| - 1]);
      var last := slots[|slots| - 1];
      if last.Sent? then before + [last.plain] else before
  }

  lemma EmissionsBound(slots: seq<Slot>)
    ensures |Emissions(slots)| <= |slots|
  {
  }

  lemma {:induction false} EmissionsPrefix(slots: seq<Slot>, accepted: seq<Plain>)
    requires |accepted| <= |slots| && forall k | 0 <= k < |accepted| :: slots[k] == Sent(accepted[k])
    ensures accepted <= Emissions(slots)
    decreases |slots|
  {
    if |accepted| < |slots| {
      EmissionsPrefix(slots[..|slots| - 1], accepted);
    } else if slots != [] {
      EmissionsPrefix(slots[..|slots| - 1], accepted[..|slots| - 1]);
      EmissionsBound(slots[..|slots| - 1]);
      assert accepted == accepted[..|slots| - 1] + [accepted[|slots| - 1]];
    }
  }

  /**
    Towards the browser: as long as the connector has used at most 2^32 numbers on the channel, the
    accepted messages are a prefix of what it sent, and stop before the first packet that was too
    large to go.
  */
  lemma BrowserAcceptsPrefix(states: seq<State>, actions: seq<Action>, i: nat, c: Channel)
    requires IsRun(states, actions) && i < |states| && c in states[i].browsers && c in states[i].connectors
    requires |states[i].connectors[c].slots| <= TWO_32
    ensures var accepted, slots := states[i].browsers[c].accepted, states[i].connectors[c].slots;
            && |accepted| <= |slots|
            && (forall k | 0 <= k < |accepted| :: slots[k] == Sent(accepted[k]))
            && accepted <= Emissions(slots)
  {
    var s := states[i];
    var accepted, slots := s.browsers[c].accepted, s.connectors[c].slots;
    AlwaysInv(states, actions, i);
    assert BrowserSlots(s, c);
    forall k: nat | k < |accepted| ensures k < |slots| && slots[k] == Sent(accepted[k]) {
      SlotIsItsNumber(s, c, k);
    }
    if accepted != [] {
      SlotIsItsNumber(s, c, |accepted| - 1);
    }
    EmissionsPrefix(slots, accepted);
  }

  lemma SlotIsItsNumber(s: State, c: Channel, k: nat)
    requires c in s.browsers && c in s.connectors && |s.connectors[c].slots| <= TWO_32 && k < |s.browsers[c].accepted|
    requires HasSlot(s, c, k)
    ensures k < |s.connectors[c].slots| && s.connectors[c].slots[k] == Sent(s.browsers[c].accepted[k])
  {
    var from: nat :| SlotOf(s, c, k, from);
  }

  /** A network that passes the expected packet on delivers it: the browser accepts what was just sent. */
  lemma BrowserAcceptsExpected(s: State, a: Action, n: State)
    requires Stepped(s, a, n) && a.ConnectorSends? && |ConnectorPacket(s, a)| <= MAX_ENCRYPTED_PACKET
    requires a.c in s.browsers && s.browsers[a.c].receiveSequence == s.connectors[a.c].sendSeq
    ensures var b := s.browsers[a.c];
            && Enabled(n, ToBrowser(a.c, ConnectorPacket(s, a)))
            && Apply(n, ToBrowser(a.c, ConnectorPacket(s, a))).browsers[a.c] ==
               b.(receiveSequence := b.receiveSequence + 1, accepted := b.accepted + [a.plain])
  {
    var k := s.connectors[a.c].sendSeq;
    PacketRoundTrip(k, a.nonce, a.box, k);
    hide AAD, BigEndian, EncodePacket, BrowserParse;
    assert SealedByConnector(s, a) in n.log;
  }

  lemma EmptyIsNoPacket(log: Log, c: Channel, k: Connector)
    ensures Decrypted(log, c, k, "").None?
  {
    hide AAD, Open;
  }

  /** And the connector accepts what the browser just sent, if it is within both of the connector's limits. */
  lemma ConnectorAcceptsExpected(s: State, a: Action, n: State)
    requires Stepped(s, a, n) && a.BrowserSends? && CanSeal(s.browsers[a.c]) && |a.plain| <= MAX_CONTROL_MESSAGE
    requires |EncodePacket(s.browsers[a.c].sendSequence, a.nonce, a.box)| <= MAX_ENCRYPTED_PACKET
    requires a.c in s.connectors && a.c in s.live && s.connectors[a.c].receiveSeq == s.browsers[a.c].sendSequence
    ensures var packet := EncodePacket(s.browsers[a.c].sendSequence, a.nonce, a.box);
            && Apply(n, ToConnector(a.c, packet)).live == s.live
            && Apply(n, ToConnector(a.c, packet)).connectors[a.c] == ConnectorAccept(s.connectors[a.c], a.plain)
  {
    assert Seals(s.log, SealedByBrowser(s, a), a.plain);
    assert n.log[SealedByBrowser(s, a)] == a.plain && n.live == s.live && n.connectors == s.connectors;
    hide Decrypted, EncodePacket, Seals;
    EmptyIsNoPacket(n.log, a.c, s.connectors[a.c]);
    DecryptsExpected(n.log, a.c, s.connectors[a.c], a.nonce, a.box, a.plain);
  }

  lemma DecryptsExpected(log: Log, c: Channel, k: Connector, nonce: Bytes, box: Bytes, plain: Plain)
    requires var key := Sealing(nonce, AAD(c, FromBrowser, BigEndian(k.receiveSeq)), box);
             key in log && log[key] == plain && Seals(log, key, plain)
    requires |plain| <= MAX_CONTROL_MESSAGE
    ensures Decrypted(log, c, k, EncodePacket(k.receiveSeq, nonce, box)) == Some(plain)
  {
    PacketRoundTrip(k.receiveSeq, nonce, box, k.receiveSeq);
    hide AAD, BigEndian, EncodePacket, ConnectorParse;
  }
}
