/** What each event does to the relay's sockets and what is sent for it, told without the handlers' own helpers. */
module RelayEffects {
  import opened Relay
  import opened Wrappers

  /** Some connector is open; by the invariant it is the one accepted last. */
  predicate Online(s: State) {
    exists c :: c in s.sockets && OpenConnector(s, c)
  }

  lemma OnlineIs(s: State)
    requires Inv(s)
    ensures Online(s) <==> Current(s).Some?
    ensures Online(s) ==> Current(s) == s.latest && s.latest.Some? && OpenConnector(s, s.latest.value)
  {
  }

  /** Exactly the open browser of this channel stops being open; every other socket is as it was. */
  ghost predicate ClosesOnly(s: State, n: State, channel: Channel) {
    && n.sockets.Keys == s.sockets.Keys
    && forall id | id in s.sockets ::
         n.sockets[id] == if IsOpen(s, id) && s.sockets[id].role == Browser(channel) then s.sockets[id].(ready := Closing) else s.sockets[id]
  }

  lemma CloseSomeIs(s: State, channel: Channel)
    requires Inv(s)
    ensures ClosesOnly(s, CloseSome(s, BrowserOf(s, channel)), channel)
    ensures CloseSome(s, BrowserOf(s, channel)).delivered == s.delivered
  {
    var n := CloseSome(s, BrowserOf(s, channel));
    forall id | id in s.sockets && IsOpen(s, id) && s.sockets[id].role == Browser(channel) ensures BrowserOf(s, channel) == Some(id) {
    }
  }

  /** A connector's `channel_close` closes that browser and no other, and tells nobody. */
  lemma ChannelCloseCloses(s: State, id: SocketId, channel: Channel, sendFails: bool, n: State)
    requires Inv(s) && Stepped(s, ConnectorMessage(id, CloseChannel(channel), sendFails), n)
    ensures ClosesOnly(s, n, channel) && n.delivered == s.delivered
  {
    CloseSomeIs(s, channel);
  }

  /** A browser that sends something that is no packet, or cannot be served, is closed, and nothing is sent. */
  lemma BadPacketCloses(s: State, id: SocketId, data: Option<string>, sendFails: bool, n: State)
    requires Inv(s) && Stepped(s, BrowserMessage(id, data, sendFails), n)
    requires data.None? || !ValidPacket(data.value) || !Online(s) || sendFails
    ensures ClosesOnly(s, n, s.sockets[id].role.channel) && n.delivered == s.delivered
  {
    OnlineIs(s);
    CloseSomeIs(s, s.sockets[id].role.channel);
    hide ValidPacket, Inv, Online;
  }

  /** A packet for a browser that is not there changes nothing; one whose sending fails closes that browser; a malformed one closes its sender. */
  lemma ForwardOutcomes(s: State, id: SocketId, channel: Channel, data: string, sendFails: bool, n: State)
    requires Inv(s) && Stepped(s, ConnectorMessage(id, Forward(channel, data), sendFails), n)
    ensures !ValidPacket(data) ==> n == Close(s, id)
    ensures ValidPacket(data) && (forall b | b in s.sockets && IsOpen(s, b) :: s.sockets[b].role != Browser(channel)) ==> n == s
    ensures ValidPacket(data) && sendFails ==> ClosesOnly(s, n, channel) && n.delivered == s.delivered
  {
    CloseSomeIs(s, channel);
    hide ValidPacket, Inv;
  }

  /** The other commands: a ping is answered, a greeting ignored, anything else closes the sender alone. */
  lemma CommandOutcomes(s: State, id: SocketId, command: Command, sendFails: bool, n: State)
    requires Stepped(s, ConnectorMessage(id, command, sendFails), n)
    ensures command.Ping? ==> n.sockets == s.sockets && n.delivered == s.delivered + [Delivery(id, Connector, Pong)]
    ensures command.Hello? ==> n == s
    ensures command.Invalid? ==> n.delivered == s.delivered && n.sockets == s.sockets[id := s.sockets[id].(ready := Closing)]
  {
    hide ValidPacket;
  }

  /** The step handles the close (the socket leaves the set) or the failure (it does not) of a socket. */
  function GoneEvent(id: SocketId, leaves: bool): Action {
    if leaves then CloseEvent(id) else ErrorEvent(id)
  }

  /** When a browser's socket closes or fails, the open connector is told that its channel is closed, and no other socket changes. */
  lemma BrowserGoneIsTold(s: State, id: SocketId, leaves: bool, n: State)
    requires Inv(s) && Stepped(s, GoneEvent(id, leaves), n) && s.sockets[id].role.Browser?
    ensures n.sockets == if leaves then s.sockets - {id} else s.sockets[id := s.sockets[id].(ready := Closing)]
    ensures n.delivered == s.delivered +
              if Online(s) then [Delivery(s.latest.value, Connector, ChannelClose(s.sockets[id].role.channel))] else []
  {
    var closed := Close(s, id);
    OnlineAfterClose(s, id);
    assert s.sockets[id := s.sockets[id].(ready := Closing)] - {id} == s.sockets - {id};
    hide Inv, Online, OpenConnector;
  }

  /** When the connector accepted last closes or fails, every browser is disconnected, and nobody is told anything. */
  lemma CurrentGoneDisconnects(s: State, id: SocketId, leaves: bool, n: State)
    requires Inv(s) && Stepped(s, GoneEvent(id, leaves), n) && s.sockets[id].role.Connector? && s.latest == Some(id)
    ensures n.delivered == s.delivered && n.sockets.Keys == if leaves then s.sockets.Keys - {id} else s.sockets.Keys
    ensures forall other | other in n.sockets ::
              n.sockets[other] == if other == id || s.sockets[other].role.Browser? then s.sockets[other].(ready := Closing) else s.sockets[other]
  {
    var closed := Close(s, id);
    assert forall c | c in closed.sockets :: !OpenConnector(closed, c);
    assert Current(closed).None?;
  }

  lemma OnlineAfterClose(s: State, id: SocketId)
    requires Inv(s) && id in s.sockets && s.sockets[id].role.Browser?
    ensures Online(s) ==> s.latest.Some? && Current(Close(s, id)) == s.latest && s.latest.value in s.sockets
                          && s.sockets[s.latest.value].role == Connector
    ensures !Online(s) ==> Current(Close(s, id)).None?
  {
    var closed := Close(s, id);
    assert forall c :: OpenConnector(closed, c) <==> OpenConnector(s, c);
  }

  /** A new connector closes every other connector and every browser, and is greeted. */
  lemma ConnectorTakesOver(s: State, n: State)
    requires Inv(s) && Stepped(s, AcceptConnector, n)
    ensures n.sockets.Keys == s.sockets.Keys + {s.next} && s.next !in s.sockets && OpenConnector(n, s.next) && n.latest == Some(s.next)
    ensures forall id | id in s.sockets :: n.sockets[id] == s.sockets[id].(ready := Closing)
    ensures n.delivered == s.delivered + [Delivery(s.next, Connector, Connected)]
  {
    hide RightlyDelivered;
  }

  /**
    A browser is accepted iff the computer is online and fewer than eight browsers exist. It is then
    open unless a send failed; the connector hears of the channel first, and then the browser that the
    bridge is ready.
  */
  lemma BrowserAccepted(s: State, channel: Channel, openFails: bool, readyFails: bool, n: State)
    requires Inv(s) && Stepped(s, AcceptBrowser(channel, openFails, readyFails), n)
    ensures var accepted := Online(s) && |Browsers(s)| < MAX_BROWSER_SOCKETS;
            && (!accepted ==> n == s)
            && (accepted ==>
                  && n.sockets == s.sockets[s.next := Socket(Browser(channel), if openFails || readyFails then Closing else Open, s.latest)]
                  && n.delivered == s.delivered +
                       (if openFails then [] else [Delivery(s.latest.value, Connector, ChannelOpen(channel))]) +
                       (if openFails || readyFails then [] else [Delivery(s.next, Browser(channel), BridgeReady(channel))]))
  {
    OnlineIs(s);
    if Online(s) {
      NextIsFresh(s);
    }
    hide Inv, Online, Current, OpenConnector;
  }

  lemma NextIsFresh(s: State)
    requires Inv(s) && Online(s)
    ensures s.next !in s.sockets && s.latest.value in s.sockets && s.sockets[s.latest.value].role == Connector && s.latest.value != s.next
  {
  }
}
