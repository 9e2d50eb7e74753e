/**
 Values shared by every part of the node.

 Byte strings the node only copies and compares (keys, payloads, signatures,
 addresses, channel names) are natural numbers; 0 is the all-zero public key
 and the empty byte string.
 */
module Types {

  datatype Option<+T> = None | Some(value: T)

  type PubKey = nat
  type Payload = nat
  type Signature = nat
  type Address = nat
  type Chan = nat

  const NO_KEY: PubKey := 0

  datatype Channel = NodeChannel | OtherChannel(id: nat)
  datatype Tag = AddrTag | OtherTag(id: nat)

  // A complete gossip message: a header (channel, tag, key, signature) and a payload.
  datatype Message = Message(channel: Channel, tag: Tag, key: PubKey, sig: Signature, payload: Payload)
  {
    predicate IsNodeAddr() {
      channel == NodeChannel && tag == AddrTag
    }
  }

  // What a node announces about itself, apart from the time of signing.
  datatype Content = Content(address: Address, port: nat, owner: PubKey, channels: seq<Chan>)

  datatype AddrMsg = AddrMsg(content: Content, time: int)

  /**
   The codec, the signature scheme and the node's own configuration. The theorems
   hold for every such environment; the few that need a law of the codec or of the
   signature scheme ask for `Lawful`.
   */
  datatype Env = Env(
    me: PubKey,
    allowLocal: bool,
    isPublic: Address -> bool,
    verify: (PubKey, Payload, Signature) -> bool,
    sign: Payload -> Signature,
    encode: AddrMsg -> Payload,
    decode: Payload -> Option<AddrMsg>)
  {
    // Own signatures verify, and decoding inverts encoding.
    ghost predicate Lawful() {
      && me != NO_KEY
      && (forall p: Payload :: verify(me, p, sign(p)))
      && (forall m: AddrMsg :: decode(encode(m)) == Some(m))
    }

    predicate Verified(m: Message) {
      m.key != NO_KEY && verify(m.key, m.payload, m.sig)
    }

    // This node's announcement of an address message.
    function Announcement(body: AddrMsg): Message {
      var payload := encode(body);
      Message(NodeChannel, AddrTag, me, sign(payload), payload)
    }
  }
}
