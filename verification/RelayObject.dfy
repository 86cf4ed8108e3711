/** The durable object over the socket set, each handler tied to a step of Relay. */
module RelayObject {
  import opened Relay
  import opened Wrappers

  /** With at most one open connector, `find` has no choice. */
  lemma CurrentIs(s: State, c: SocketId)
    requires Inv(s) && c in s.sockets && OpenConnector(s, c)
    ensures Current(s) == Some(c)
  {
    assert s.latest == Some(c);
  }

  lemma BrowserIs(s: State, b: SocketId, channel: Channel)
    requires Inv(s) && b in s.sockets && IsOpen(s, b) && s.sockets[b].role == Browser(channel)
    ensures BrowserOf(s, channel) == Some(b)
  {
  }

  class TermlinksRelay {
    var sockets: map<SocketId, Socket>
    var next: SocketId
    var delivered: seq<Delivery>

    ghost var latest: Option<SocketId>

    ghost function Now(): State
      reads this
    {
      State(sockets, latest, next, delivered)
    }

    ghost predicate Valid()
      reads this
    {
      Inv(Now())
    }

    constructor ()
      ensures Valid() && Now() == INIT
    {
      sockets, next, delivered, latest := map[], 0, [], None;
    }

    method SendTo(id: SocketId, message: Message)
      requires id in sockets
      modifies this`delivered
      ensures Now() == Send(old(Now()), id, message)
    {
      delivered := delivered + [Delivery(id, sockets[id].role, message)];
    }

    method CloseSocket(id: SocketId)
      requires id in sockets
      modifies this`sockets
      ensures Now() == Close(old(Now()), id)
    {
      sockets := sockets[id := sockets[id].(ready := Closing)];
    }

    /** `connector()` */
    method FindConnector() returns (c: Option<SocketId>)
      requires Valid()
      ensures c == Current(Now())
      ensures c.Some? ==> c.value in sockets && OpenConnector(Now(), c.value)
    {
      if exists id :: id in sockets && sockets[id].ready == Open && sockets[id].role == Connector {
        var id :| id in sockets && sockets[id].ready == Open && sockets[id].role == Connector;
        CurrentIs(Now(), id);
        return Some(id);
      }
      c := None;
    }

    /** `browser(channel)` */
    method FindBrowser(channel: Channel) returns (b: Option<SocketId>)
      requires Valid()
      ensures b == BrowserOf(Now(), channel)
      ensures b.Some? ==> b.value in sockets && OpenBrowser(Now(), b.value)
    {
      if exists id :: id in sockets && sockets[id].ready == Open && sockets[id].role == Browser(channel) {
        var id :| id in sockets && sockets[id].ready == Open && sockets[id].role == Browser(channel);
        BrowserIs(Now(), id, channel);
        return Some(id);
      }
      b := None;
    }

    /** Closes every connector, or every browser, one after the other. */
    method CloseAll(connectors: bool)
      modifies this`sockets
      ensures Now() == if connectors then CloseConnectors(old(Now())) else DisconnectBrowsers(old(Now()))
    {
      var pending := set id | id in sockets && sockets[id].role.Connector? == connectors;
      while pending != {}
        invariant pending <= sockets.Keys == old(sockets.Keys)
        invariant forall id | id in pending :: old(sockets)[id].role.Connector? == connectors
        invariant forall id | id in sockets ::
                    sockets[id] == if id !in pending && old(sockets)[id].role.Connector? == connectors then old(sockets)[id].(ready := Closing)
                                   else old(sockets)[id]
      {
        var id :| id in pending;
        CloseSocket(id);
        pending := pending - {id};
      }
    }

    method AcceptConnector()
      requires Valid()
      modifies this
      ensures Valid() && Now() == Apply(old(Now()), Action.AcceptConnector)
    {
      hide Inv;
      AcceptConnectorKeeps(Now());
      CloseAll(true);
      CloseAll(false);
      var id := next;
      sockets := sockets[id := Socket(Connector, Open, None)];
      latest := Some(id);
      next := next + 1;
      SendTo(id, Connected);
    }

    method CountBrowsers() returns (n: nat)
      ensures n == |Browsers(Now())|
    {
      var browsers := set id | id in sockets && sockets[id].role.Browser?;
      assert browsers == Browsers(Now());
      n := |browsers|;
    }

    /** The channel is a fresh UUID. */
    method AcceptBrowser(channel: Channel, openFails: bool, readyFails: bool) returns (accepted: bool)
      requires Valid() && Enabled(Now(), Action.AcceptBrowser(channel, openFails, readyFails))
      modifies this
      ensures Valid() && Now() == Apply(old(Now()), Action.AcceptBrowser(channel, openFails, readyFails))
      ensures accepted <==> Current(old(Now())).Some? && |Browsers(old(Now()))| < MAX_BROWSER_SOCKETS
    {
      assert next !in sockets;
      hide Inv, Current, Browsers;
      AcceptBrowserKeeps(Now(), channel, openFails, readyFails);
      var connector := FindConnector();
      if connector.None? {
        return false;
      }
      var count := CountBrowsers();
      if count >= MAX_BROWSER_SOCKETS {
        return false;
      }
      var id := next;
      sockets := sockets[id := Socket(Browser(channel), Open, connector)];
      next := next + 1;
      accepted := true;
      if openFails {
        CloseSocket(id);
        return;
      }
      SendTo(connector.value, ChannelOpen(channel));
      if readyFails {
        CloseSocket(id);
        return;
      }
      SendTo(id, BridgeReady(channel));
    }

    /** `forwardCiphertext` */
    method ForwardCiphertext(id: SocketId, data: Option<string>, sendFails: bool)
      requires Valid() && Enabled(Now(), BrowserMessage(id, data, sendFails))
      modifies this
      ensures Valid() && Now() == Apply(old(Now()), BrowserMessage(id, data, sendFails))
    {
      StepKeeps(Now(), BrowserMessage(id, data, sendFails), Apply(Now(), BrowserMessage(id, data, sendFails)));
      hide Inv, Current, BrowserOf, ValidPacket;
      var channel := sockets[id].role.channel;
      var connector := FindConnector();
      if data.None? || !ValidPacket(data.value) || connector.None? || sendFails {
        var browser := FindBrowser(channel);
        if browser.Some? {
          CloseSocket(browser.value);
        }
        return;
      }
      SendTo(connector.value, FromBrowser(channel, data.value));
    }

    /** `handleConnectorMessage` */
    method HandleConnectorMessage(id: SocketId, command: Command, sendFails: bool)
      requires Valid() && Enabled(Now(), ConnectorMessage(id, command, sendFails))
      modifies this
      ensures Valid() && Now() == Apply(old(Now()), ConnectorMessage(id, command, sendFails))
    {
      StepKeeps(Now(), ConnectorMessage(id, command, sendFails), Apply(Now(), ConnectorMessage(id, command, sendFails)));
      hide Inv, BrowserOf, ValidPacket;
      match command {
        case Forward(channel, data) =>
          if !ValidPacket(data) {
            CloseSocket(id);
            return;
          }
          var browser := FindBrowser(channel);
          if browser.None? {
            return;
          }
          if sendFails {
            CloseSocket(browser.value);
          } else {
            SendTo(browser.value, ToBrowser(channel, data));
          }
        case CloseChannel(channel) =>
          var browser := FindBrowser(channel);
          if browser.Some? {
            CloseSocket(browser.value);
          }
        case Ping => SendTo(id, Pong);
        case Hello =>
        case Invalid => CloseSocket(id);
      }
    }

    /** `webSocketClose` and `webSocketError`; the runtime drops a closed socket afterwards. */
    method SocketGone(id: SocketId, closed: bool)
      requires Valid() && id in sockets
      modifies this
      ensures Valid() && Now() == Apply(old(Now()), if closed then CloseEvent(id) else ErrorEvent(id))
    {
      ghost var a := if closed then CloseEvent(id) else ErrorEvent(id);
      hide Inv, Current;
      StepKeeps(Now(), a, Apply(Now(), a));
      CloseKeeps(Now(), id);
      CloseSocket(id);
      var role := sockets[id].role;
      var current := FindConnector();
      match role {
        case Connector =>
          if current.None? || current.value == id {
            CloseAll(false);
          }
        case Browser(channel) =>
          if current.Some? {
            SendTo(current.value, ChannelClose(channel));
          }
      }
      if closed {
        sockets := sockets - {id};
      }
    }
  }
}
