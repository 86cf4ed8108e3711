/** The objects at the two ends of a channel, each method tied to a step of SecureChannel. */
module ChannelEnds {
  import opened Bytes
  import opened PacketCodec
  import opened SecureChannel
  import opened Wrappers

  /** web/src/main.ts: the sequence counters and the send chain of one bridge. */
  class EncryptedBridge {
    const channel: Channel
    var sendSequence: int
    var receiveSequence: int
    var sendChainBroken: bool
    var failed: bool

    ghost var sent: seq<Plain>
    ghost var accepted: seq<Plain>

    ghost function Ends(): Browser
      reads this
    {
      Browser(sendSequence, receiveSequence, sendChainBroken, failed, sent, accepted)
    }

    constructor (id: Channel)
      ensures Ends() == NEW_BROWSER && channel == id
    {
      channel, sendSequence, receiveSequence, sendChainBroken, failed := id, 0, 0, false, false;
      sent, accepted := [], [];
    }

    /** One link of the send chain; the box seals `plain` under the sequence taken here. */
    method SendEncrypted(plain: Plain, nonce: Bytes, box: Bytes) returns (packet: Option<string>)
      modifies this
      ensures Ends() == BrowserSend(old(Ends()), plain)
      ensures packet == if CanSeal(old(Ends())) then Some(EncodePacket(old(sendSequence), nonce, box)) else None
    {
      if sendChainBroken {
        return None;
      }
      if failed {
        sendChainBroken := true;
        return None;
      }
      var sequence := sendSequence;
      sendSequence := sendSequence + 1;
      packet := AssemblePacket(sequence, nonce, box);
      if packet.None? {
        sendChainBroken := true;
      } else {
        sent := sent + [plain];
      }
    }

    method Receive(log: Log, packet: string) returns (plain: Option<Plain>)
      modifies this
      ensures Ends() == BrowserReceive(log, channel, old(Ends()), packet)
      ensures plain == Unseal(log, channel, FromConnector, BrowserParse(packet, old(receiveSequence)))
    {
      plain := Unseal(log, channel, FromConnector, BrowserParse(packet, receiveSequence));
      if plain.None? {
        failed := true;
        return;
      }
      receiveSequence := receiveSequence + 1;
      accepted := accepted + [plain.value];
    }
  }

  /** cloud/connector.go: the live channels of one relay connection. */
  class ConnectionState {
    var channels: map<Channel, Connector>

    /** The live channels are those of `s`, with their counters. */
    ghost predicate Mirrors(s: State)
      reads this
    {
      && channels.Keys == s.live
      && forall c | c in channels :: c in s.connectors && s.connectors[c] == channels[c]
    }

    constructor ()
      ensures Mirrors(INIT)
    {
      channels := map[];
    }

    /** An id that is still live is closed first. */
    method OpenChannel(c: Channel, ghost s: State)
      modifies this
      ensures channels == old(channels)[c := NEW_CONNECTOR]
      ensures old(Mirrors(s)) && Enabled(s, ConnectorOpens(c)) ==> Mirrors(Apply(s, ConnectorOpens(c)))
    {
      if c in channels {
        CloseChannel(c, s);
      }
      channels := channels[c := NEW_CONNECTOR];
    }

    method CloseChannel(c: Channel, ghost s: State)
      modifies this
      ensures channels == old(channels) - {c}
      ensures old(Mirrors(s)) ==> Mirrors(Apply(s, ConnectorCloses(c)))
    {
      channels := channels - {c};
    }

    /** The number is used up even when the packet turns out too large to send. */
    method SendEncrypted(c: Channel, plain: Plain, nonce: Bytes, box: Bytes, ghost s: State) returns (packet: Option<string>)
      requires Mirrors(s)
      requires c in channels ==> Enabled(s, ConnectorSends(c, plain, nonce, box))
      modifies this
      ensures if c !in old(channels) then Mirrors(s) && packet.None?
              else
                var a := ConnectorSends(c, plain, nonce, box);
                && Mirrors(Apply(s, a))
                && packet == if |ConnectorPacket(s, a)| > MAX_ENCRYPTED_PACKET then None else Some(ConnectorPacket(s, a))
    {
      if c !in channels {
        return None;
      }
      hide EncodePacket, AAD, BigEndian;
      var channel := channels[c];
      var text := EncodePacket(channel.sendSeq, nonce, box);
      channels := channels[c := ConnectorSend(channel, plain, text)];
      if |text| > MAX_ENCRYPTED_PACKET {
        return None;
      }
      packet := Some(text);
    }

    /** `closeAllChannels`, when the connection to the relay ends. */
    method CloseAllChannels()
      modifies this
      ensures channels == map[]
    {
      while channels != map[]
        decreases |channels|
      {
        var c :| c in channels;
        channels := channels - {c};
      }
    }

    /** `readRelay`: a packet of no or too many characters ends the connection, and with it every channel. */
    method ReadEncrypted(c: Channel, log: Log, packet: string, ghost s: State) returns (plain: Option<Plain>, stays: bool)
      requires Mirrors(s) && s.log == log
      modifies this
      ensures Mirrors(Apply(s, ToConnector(c, packet))) && stays == Admitted(packet)
      ensures plain.Some? <==> Admitted(packet) && c in old(channels) && Decrypted(log, c, old(channels)[c], packet).Some?
    {
      if |packet| == 0 || |packet| > MAX_ENCRYPTED_PACKET {
        CloseAllChannels();
        return None, false;
      }
      plain := HandleEncrypted(c, log, packet, s);
      stays := true;
    }

    /** Anything that does not decrypt under the expected number closes the channel. */
    method HandleEncrypted(c: Channel, log: Log, packet: string, ghost s: State) returns (plain: Option<Plain>)
      requires Mirrors(s) && s.log == log && Admitted(packet)
      modifies this
      ensures Mirrors(Apply(s, ToConnector(c, packet)))
      ensures plain.Some? <==> c in old(channels) && Decrypted(log, c, old(channels)[c], packet).Some?
    {
      if c !in channels {
        return None;
      }
      hide Decrypted;
      var channel := channels[c];
      plain := Decrypted(log, c, channel, packet);
      if plain.None? {
        CloseChannel(c, s);
      } else {
        channels := channels[c := ConnectorAccept(channel, plain.value)];
      }
    }
  }
}
