/**
  The relay's socket set (apps/relay/src/index.ts): accepting a connector and browsers, forwarding
  between them, and what late close and error events do.
*/
module Relay {
  import opened Base64Url
  import opened Collections
  import opened Wrappers
  import Packet = PacketCodec

  type SocketId = nat
  type Channel = string

  const MAX_BROWSER_SOCKETS := 8

  /** The serialized attachment of a socket. */
  datatype Role = Connector | Browser(channel: Channel)

  datatype Ready = Open | Closing

  /** `under` is, for a browser, the connector it was accepted under. */
  datatype Socket = Socket(role: Role, ready: Ready, under: Option<SocketId>)

  datatype Message =
    | Connected | Pong
    | ChannelOpen(id: Channel) | BridgeReady(id: Channel)
    | FromBrowser(id: Channel, data: string) | ToBrowser(id: Channel, data: string) | ChannelClose(id: Channel)

  /** A message handed to a socket, with the role the socket has. */
  datatype Delivery = Delivery(to: SocketId, role: Role, message: Message)

  /** `latest` is the connector accepted last, open or not. Ids are not reused. */
  datatype State = State(sockets: map<SocketId, Socket>, latest: Option<SocketId>, next: SocketId, delivered: seq<Delivery>)

  const INIT := State(map[], None, 0, [])

  /** What a connector sent, after `JSON.parse` and the field checks. */
  datatype Command = Forward(id: Channel, data: string) | CloseChannel(id: Channel) | Ping | Hello | Invalid

  datatype Action =
    | AcceptConnector
    | AcceptBrowser(channel: Channel, openFails: bool, readyFails: bool)
    | BrowserMessage(id: SocketId, data: Option<string>, sendFails: bool)
    | ConnectorMessage(id: SocketId, command: Command, sendFails: bool)
    | StopsBeingOpen(id: SocketId)
    | CloseEvent(id: SocketId)
    | ErrorEvent(id: SocketId)

  // ---- the socket set --------------------------------------------------------------------------

  predicate IsOpen(s: State, id: SocketId) {
    id in s.sockets && s.sockets[id].ready == Open
  }

  predicate OpenConnector(s: State, id: SocketId) {
    IsOpen(s, id) && s.sockets[id].role == Connector
  }

  predicate OpenBrowser(s: State, id: SocketId) {
    IsOpen(s, id) && s.sockets[id].role.Browser?
  }

  ghost function OpenBrowsers(s: State): set<SocketId> {
    set id | id in s.sockets && OpenBrowser(s, id)
  }

  function Browsers(s: State): set<SocketId> {
    set id | id in s.sockets && s.sockets[id].role.Browser?
  }

  /** `connector()`: some open connector. */
  ghost function Current(s: State): Option<SocketId> {
    if c :| c in s.sockets && OpenConnector(s, c) then Some(c) else None
  }

  /** `browser(channel)`: some open socket tagged with the channel. */
  ghost function BrowserOf(s: State, channel: Channel): Option<SocketId> {
    if b :| b in s.sockets && IsOpen(s, b) && s.sockets[b].role == Browser(channel) then Some(b) else None
  }

  function Close(s: State, id: SocketId): State {
    if id in s.sockets then s.(sockets := s.sockets[id := s.sockets[id].(ready := Closing)]) else s
  }

  function CloseSome(s: State, id: Option<SocketId>): State {
    if id.Some? then Close(s, id.value) else s
  }

  function Send(s: State, id: SocketId, message: Message): State {
    if id in s.sockets then s.(delivered := s.delivered + [Delivery(id, s.sockets[id].role, message)]) else s
  }

  function DisconnectBrowsers(s: State): State {
    s.(sockets := map id | id in s.sockets :: if s.sockets[id].role.Browser? then s.sockets[id].(ready := Closing) else s.sockets[id])
  }

  function CloseConnectors(s: State): State {
    s.(sockets := map id | id in s.sockets :: if s.sockets[id].role.Connector? then s.sockets[id].(ready := Closing) else s.sockets[id])
  }

  predicate ValidPacket(data: string) {
    data != "" && |data| <= Packet.MAX_ENCRYPTED_PACKET && InUrl(data)
  }

  function Removed(s: State, id: SocketId): State {
    s.(sockets := s.sockets - {id})
  }

  // ---- steps -----------------------------------------------------------------------------------

  /** Ids are fresh UUIDs; events come from sockets in the set. */
  ghost predicate Enabled(s: State, a: Action) {
    match a
    case AcceptConnector => true
    case AcceptBrowser(channel, _, _) => forall id | id in s.sockets :: s.sockets[id].role != Browser(channel)
    case BrowserMessage(id, _, _) => id in s.sockets && s.sockets[id].role.Browser?
    case ConnectorMessage(id, _, _) => id in s.sockets && s.sockets[id].role.Connector?
    case StopsBeingOpen(id) => id in s.sockets
    case CloseEvent(id) => id in s.sockets
    case ErrorEvent(id) => id in s.sockets
  }

  ghost function AcceptedConnector(s: State): State {
    var cleared := DisconnectBrowsers(CloseConnectors(s));
    var accepted := cleared.(sockets := cleared.sockets[s.next := Socket(Connector, Open, None)], latest := Some(s.next), next := s.next + 1);
    Send(accepted, s.next, Connected)
  }

  ghost function WithBrowser(s: State, channel: Channel): State {
    s.(sockets := s.sockets[s.next := Socket(Browser(channel), Open, Current(s))], next := s.next + 1)
  }

  ghost function AcceptedBrowser(s: State, channel: Channel, openFails: bool, readyFails: bool): State {
    if Current(s).None? || |Browsers(s)| >= MAX_BROWSER_SOCKETS then s
    else
      var accepted := WithBrowser(s, channel);
      if openFails then Close(accepted, s.next)
      else
        var told := Send(accepted, Current(s).value, ChannelOpen(channel));
        if readyFails then Close(told, s.next) else Send(told, s.next, BridgeReady(channel))
  }

  ghost function Forwarded(s: State, id: SocketId, data: Option<string>, sendFails: bool): State
    requires id in s.sockets && s.sockets[id].role.Browser?
  {
    var channel := s.sockets[id].role.channel;
    if data.None? || !ValidPacket(data.value) then CloseSome(s, BrowserOf(s, channel))
    else if Current(s).None? || sendFails then CloseSome(s, BrowserOf(s, channel))
    else Send(s, Current(s).value, FromBrowser(channel, data.value))
  }

  ghost function Commanded(s: State, id: SocketId, command: Command, sendFails: bool): State {
    match command
    case Forward(channel, data) =>
      if !ValidPacket(data) then Close(s, id)
      else
        var b := BrowserOf(s, channel);
        if b.None? then s else if sendFails then Close(s, b.value) else Send(s, b.value, ToBrowser(channel, data))
    case CloseChannel(channel) => CloseSome(s, BrowserOf(s, channel))
    case Ping => Send(s, id, Pong)
    case Hello => s
    case Invalid => Close(s, id)
  }

  /** A connector that is gone takes the browsers with it unless another connector is open. */
  ghost function ConnectorGone(s: State, id: SocketId): State {
    var current := Current(s);
    if current.Some? && current.value != id then s else DisconnectBrowsers(s)
  }

  ghost function BrowserGone(s: State, channel: Channel): State {
    if Current(s).Some? then Send(s, Current(s).value, ChannelClose(channel)) else s
  }

  ghost function Gone(s: State, id: SocketId): State
    requires id in s.sockets
  {
    match s.sockets[id].role
    case Connector => ConnectorGone(s, id)
    case Browser(channel) => BrowserGone(s, channel)
  }

  /** A socket is no longer open when its close or error event is handled; after its close it leaves the set. */
  ghost function Apply(s: State, a: Action): State
    requires Enabled(s, a)
  {
    match a
    case AcceptConnector => AcceptedConnector(s)
    case AcceptBrowser(channel, openFails, readyFails) => AcceptedBrowser(s, channel, openFails, readyFails)
    case BrowserMessage(id, data, sendFails) => Forwarded(s, id, data, sendFails)
    case ConnectorMessage(id, command, sendFails) => Commanded(s, id, command, sendFails)
    case StopsBeingOpen(id) => Close(s, id)
    case CloseEvent(id) => Removed(Gone(Close(s, id), id), id)
    case ErrorEvent(id) => Gone(Close(s, id), id)
  }

  ghost predicate Stepped(s: State, a: Action, n: State) {
    Enabled(s, a) && n == Apply(s, a)
  }

  ghost predicate IsRun(states: seq<State>, actions: seq<Action>) {
    && |states| == |actions| + 1 && states[0] == INIT
    && forall k | 0 <= k < |actions| :: Stepped(states[k], actions[k], states[k + 1])
  }

  // ---- invariant -------------------------------------------------------------------------------

  /** The only connector that may be open is the one accepted last. */
  ghost predicate OnlyLatestOpen(s: State) {
    forall id | id in s.sockets && OpenConnector(s, id) :: s.latest == Some(id)
  }

  /** Open browsers belong to the connector accepted last. */
  ghost predicate BrowsersAreCurrent(s: State) {
    forall id | id in s.sockets && OpenBrowser(s, id) :: s.latest.Some? && s.sockets[id].under == s.latest
  }

  ghost predicate ChannelsDistinct(s: State) {
    forall a, b | a in s.sockets && b in s.sockets && s.sockets[a].role.Browser? && s.sockets[a].role == s.sockets[b].role :: a == b
  }

  /** A packet for a browser was handed to a socket of exactly that channel; packets from browsers go to connectors. */
  ghost predicate RightlyDelivered(d: Delivery) {
    match d.message
    case ToBrowser(id, _) => d.role == Browser(id)
    case BridgeReady(id) => d.role == Browser(id)
    case _ => d.role == Connector
  }

  ghost predicate Inv(s: State) {
    && OnlyLatestOpen(s) && BrowsersAreCurrent(s) && ChannelsDistinct(s)
    && |Browsers(s)| <= MAX_BROWSER_SOCKETS
    && (forall id | id in s.sockets :: id < s.next)
    && (forall k | 0 <= k < |s.delivered| :: RightlyDelivered(s.delivered[k]))
  }

  /** Nothing opens: sockets only lose their readiness or leave. */
  ghost predicate Shrinks(s: State, n: State) {
    && n.latest == s.latest && n.next == s.next
    && (forall id | id in n.sockets :: id in s.sockets && n.sockets[id].role == s.sockets[id].role
                                       && n.sockets[id].under == s.sockets[id].under
                                       && (n.sockets[id].ready == Open ==> s.sockets[id].ready == Open))
  }

  /** At most one message, and that one rightly. */
  ghost predicate Adds(s: State, n: State) {
    n.delivered == s.delivered || (exists d :: RightlyDelivered(d) && n.delivered == s.delivered + [d])
  }

  lemma ShrinkKeeps(s: State, n: State)
    requires Inv(s) && Shrinks(s, n) && Adds(s, n)
    ensures Inv(n)
  {
    SubsetIsSmaller(Browsers(n), Browsers(s));
  }

  lemma StepShrinks(s: State, a: Action, n: State)
    requires Stepped(s, a, n) && !a.AcceptConnector? && !a.AcceptBrowser?
    ensures Shrinks(s, n) && Adds(s, n)
  {
    hide Forwarded, Commanded, Gone, Close, Removed, Shrinks, Adds;
    match a {
      case BrowserMessage(id, data, sendFails) => ForwardedShrinks(s, id, data, sendFails);
      case ConnectorMessage(id, command, sendFails) => CommandedShrinks(s, id, command, sendFails);
      case StopsBeingOpen(id) => CloseShrinks(s, id);
      case CloseEvent(id) => GoneShrinks(s, id);
      case ErrorEvent(id) => GoneShrinks(s, id);
      case _ =>
    }
  }

  lemma CloseShrinks(s: State, id: SocketId)
    ensures Shrinks(s, Close(s, id)) && Adds(s, Close(s, id)) && Close(s, id).sockets.Keys == s.sockets.Keys
  {
  }

  lemma ForwardedShrinks(s: State, id: SocketId, data: Option<string>, sendFails: bool)
    requires id in s.sockets && s.sockets[id].role.Browser?
    ensures Shrinks(s, Forwarded(s, id, data, sendFails)) && Adds(s, Forwarded(s, id, data, sendFails))
  {
    hide ValidPacket;
  }

  lemma CommandedShrinks(s: State, id: SocketId, command: Command, sendFails: bool)
    requires id in s.sockets && s.sockets[id].role.Connector?
    ensures Shrinks(s, Commanded(s, id, command, sendFails)) && Adds(s, Commanded(s, id, command, sendFails))
  {
    hide ValidPacket;
  }

  /** A socket that is no longer open is told to nobody but, for a browser, the connector. */
  lemma GoneShrinks(s: State, id: SocketId)
    requires id in s.sockets
    ensures var n := Gone(Close(s, id), id);
            Shrinks(s, n) && Adds(s, n) && Shrinks(s, Removed(n, id)) && Adds(s, Removed(n, id))
  {
  }

  lemma AcceptConnectorKeeps(s: State)
    requires Inv(s)
    ensures Inv(AcceptedConnector(s))
  {
    var n := AcceptedConnector(s);
    SubsetIsSmaller(Browsers(n), Browsers(s));
  }

  lemma CloseKeeps(s: State, id: SocketId)
    requires Inv(s)
    ensures Inv(Close(s, id))
  {
    ShrinkKeeps(s, Close(s, id));
  }

  lemma SendKeeps(s: State, id: SocketId, message: Message)
    requires Inv(s) && (id in s.sockets ==> RightlyDelivered(Delivery(id, s.sockets[id].role, message)))
    ensures Inv(Send(s, id, message))
  {
    if id in s.sockets {
      assert Send(s, id, message).delivered == s.delivered + [Delivery(id, s.sockets[id].role, message)];
    }
    ShrinkKeeps(s, Send(s, id, message));
  }

  lemma WithBrowserKeeps(s: State, channel: Channel)
    requires Inv(s) && Current(s).Some? && |Browsers(s)| < MAX_BROWSER_SOCKETS
    requires forall id | id in s.sockets :: s.sockets[id].role != Browser(channel)
    ensures Inv(WithBrowser(s, channel))
  {
    var n := WithBrowser(s, channel);
    assert Browsers(n) == Browsers(s) + {s.next};
    hide RightlyDelivered;
  }

  lemma AcceptBrowserKeeps(s: State, channel: Channel, openFails: bool, readyFails: bool)
    requires Inv(s) && Enabled(s, AcceptBrowser(channel, openFails, readyFails))
    ensures Inv(AcceptedBrowser(s, channel, openFails, readyFails))
  {
    if Current(s).Some? && |Browsers(s)| < MAX_BROWSER_SOCKETS {
      var accepted, c := WithBrowser(s, channel), Current(s).value;
      assert c != s.next;
      WithBrowserKeeps(s, channel);
      hide Inv, Current, Browsers;
      CloseKeeps(accepted, s.next);
      SendKeeps(accepted, c, ChannelOpen(channel));
      CloseKeeps(Send(accepted, c, ChannelOpen(channel)), s.next);
      SendKeeps(Send(accepted, c, ChannelOpen(channel)), s.next, BridgeReady(channel));
    }
  }

  lemma StepKeeps(s: State, a: Action, n: State)
    requires Inv(s) && Stepped(s, a, n)
    ensures Inv(n)
  {
    match a {
      case AcceptConnector => AcceptConnectorKeeps(s);
      case AcceptBrowser(channel, openFails, readyFails) => AcceptBrowserKeeps(s, channel, openFails, readyFails);
      case _ =>
        hide Inv, Stepped;
        StepShrinks(s, a, n);
        ShrinkKeeps(s, n);
    }
  }

  lemma {:induction false} AlwaysInv(states: seq<State>, actions: seq<Action>, i: nat)
    requires IsRun(states, actions) && i < |states|
    ensures Inv(states[i])
  {
    if i > 0 {
      AlwaysInv(states, actions, i - 1);
      hide Inv, Stepped;
      StepKeeps(states[i - 1], actions[i - 1], states[i]);
    }
  }

  // ---- main results ----------------------------------------------------------------------------

  /**
    In every run: at most one connector socket is open and it is the one accepted last; every open
    browser was accepted under that connector; no more than eight browser sockets exist.
  */
  lemma OneConnector(states: seq<State>, actions: seq<Action>, i: nat)
    requires IsRun(states, actions) && i < |states|
    ensures forall a, b | a in states[i].sockets && b in states[i].sockets && OpenConnector(states[i], a) && OpenConnector(states[i], b) :: a == b
    ensures forall a | a in states[i].sockets && OpenConnector(states[i], a) :: states[i].latest == Some(a)
    ensures forall b | b in states[i].sockets && OpenBrowser(states[i], b) :: states[i].latest.Some? && states[i].sockets[b].under == states[i].latest
    ensures |OpenBrowsers(states[i])| <= MAX_BROWSER_SOCKETS
  {
    AlwaysInv(states, actions, i);
    SubsetIsSmaller(OpenBrowsers(states[i]), Browsers(states[i]));
  }

  /** In every run a packet only reaches the browser whose channel id it carries. */
  lemma PacketsReachTheirChannel(states: seq<State>, actions: seq<Action>, i: nat, k: nat)
    requires IsRun(states, actions) && i < |states| && k < |states[i].delivered|
    ensures var d := states[i].delivered[k];
            && (d.message.ToBrowser? ==> d.role == Browser(d.message.id))
            && (d.message.FromBrowser? ==> d.role == Connector)
  {
    AlwaysInv(states, actions, i);
    assert RightlyDelivered(states[i].delivered[k]);
  }

  /** A browser's packet goes to the open connector under the browser's own channel, unchanged, or the browser is closed. */
  lemma BrowserPacketIsTagged(s: State, id: SocketId, data: string, n: State)
    requires Inv(s) && Stepped(s, BrowserMessage(id, Some(data), false), n) && ValidPacket(data)
    ensures if exists c :: c in s.sockets && OpenConnector(s, c) then
              && s.latest.Some? && OpenConnector(s, s.latest.value) && n.sockets == s.sockets
              && n.delivered == s.delivered + [Delivery(s.latest.value, Connector, FromBrowser(s.sockets[id].role.channel, data))]
            else n.delivered == s.delivered && !OpenBrowser(n, id)
  {
    hide ValidPacket;
    var channel := s.sockets[id].role.channel;
    if IsOpen(s, id) {
      assert BrowserOf(s, channel) == Some(id);
    }
  }

  /** And a connector's packet reaches the open browser of its channel, if there is one. */
  lemma ConnectorPacketIsForwarded(s: State, id: SocketId, channel: Channel, data: string, n: State, b: SocketId)
    requires Inv(s) && Stepped(s, ConnectorMessage(id, Forward(channel, data), false), n) && ValidPacket(data)
    requires b in s.sockets && OpenBrowser(s, b) && s.sockets[b].role == Browser(channel)
    ensures n.sockets == s.sockets && n.delivered == s.delivered + [Delivery(b, Browser(channel), ToBrowser(channel, data))]
  {
    assert BrowserOf(s, channel) == Some(b);
  }

  /**
    The late close or error of a replaced connector: no browser is disconnected exactly when some
    connector is open at that moment (or no browser was open). Otherwise all of them are.
  */
  lemma LateEventOfReplaced(s: State, id: SocketId, n: State)
    requires Inv(s) && id in s.sockets && s.sockets[id].role == Connector && s.latest != Some(id)
    requires Stepped(s, CloseEvent(id), n) || Stepped(s, ErrorEvent(id), n)
    ensures OpenBrowsers(n) == OpenBrowsers(s) <==> (exists c :: c in s.sockets && OpenConnector(s, c)) || OpenBrowsers(s) == {}
    ensures OpenBrowsers(n) == OpenBrowsers(s) || OpenBrowsers(n) == {}
  {
    var closed := Close(s, id);
    assert OpenBrowsers(closed) == OpenBrowsers(s);
    assert forall c :: OpenConnector(closed, c) <==> OpenConnector(s, c);
    if c :| c in s.sockets && OpenConnector(s, c) {
      assert OpenConnector(closed, c);
      assert Gone(closed, id) == closed;
      assert OpenBrowsers(n) == OpenBrowsers(s);
    } else {
      assert OpenBrowsers(n) == {};
    }
  }

  // A run in which no connector is open when the close of a replaced one arrives.

  const CLOSING_CONNECTOR := Socket(Connector, Closing, None)
  const LIVE_CONNECTOR := Socket(Connector, Open, None)
  const PORTAL_BROWSER := Socket(Browser("c"), Open, Some(1))
  const GREETINGS := [Delivery(0, Connector, Connected), Delivery(1, Connector, Connected)]
  const PAIRING := GREETINGS + [Delivery(1, Connector, ChannelOpen("c")), Delivery(2, Browser("c"), BridgeReady("c"))]

  const S1 := State(map[0 := LIVE_CONNECTOR], Some(0), 1, GREETINGS[..1])
  const S2 := State(map[0 := CLOSING_CONNECTOR, 1 := LIVE_CONNECTOR], Some(1), 2, GREETINGS)
  const S3 := State(map[0 := CLOSING_CONNECTOR, 1 := LIVE_CONNECTOR, 2 := PORTAL_BROWSER], Some(1), 3, PAIRING)
  const S4 := State(map[0 := CLOSING_CONNECTOR, 1 := CLOSING_CONNECTOR, 2 := PORTAL_BROWSER], Some(1), 3, PAIRING)

  lemma TwoConnectors()
    ensures Stepped(INIT, AcceptConnector, S1) && Stepped(S1, AcceptConnector, S2)
  {
    assert AcceptedConnector(INIT) == S1;
    assert AcceptedConnector(S1) == S2;
  }

  lemma BrowserJoins()
    ensures Stepped(S2, AcceptBrowser("c", false, false), S3)
  {
    assert OpenConnector(S2, 1) && !OpenConnector(S2, 0) && Current(S2) == Some(1);
    assert Browsers(S2) == {};
    assert AcceptedBrowser(S2, "c", false, false) == S3;
  }

  lemma CurrentIsClosed()
    ensures Stepped(S3, ConnectorMessage(1, Invalid, false), S4)
    ensures Stepped(S4, CloseEvent(0), Apply(S4, CloseEvent(0))) && !OpenBrowser(Apply(S4, CloseEvent(0)), 2)
  {
    assert Close(S3, 1) == S4;
    assert Close(S4, 0) == S4 && Current(S4).None?;
  }

  /**
    That moment can exclude one: the current connector sends something invalid and is closed by the
    relay; before its own close event, the close of the connector it replaced arrives and disconnects
    a browser accepted under the current one.
  */
  lemma LateCloseCanDisconnect() returns (states: seq<State>, actions: seq<Action>)
    ensures IsRun(states, actions) && |actions| == 5 && actions[4] == CloseEvent(0)
    ensures states[4].latest == Some(1) && OpenBrowser(states[4], 2) && states[4].sockets[2].under == Some(1)
    ensures !OpenBrowser(states[5], 2)
  {
    hide Stepped, Apply;
    TwoConnectors();
    BrowserJoins();
    CurrentIsClosed();
    actions := [AcceptConnector, AcceptConnector, AcceptBrowser("c", false, false), ConnectorMessage(1, Invalid, false), CloseEvent(0)];
    states := [INIT, S1, S2, S3, S4, Apply(S4, CloseEvent(0))];
  }
}
