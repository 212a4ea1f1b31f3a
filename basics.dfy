/**
  The Daisyway key derivation and the two rekey messages. The hash is
  `HashDomain::mix` (SHAKE256 in the source), passed in as `mix`.
*/
module Crypto {
  import opened Bytes
  import opened Wrappers
  import opened Errors
  import opened Uuids
  import opened Foreign
  import opened Etsi014

  /** Default seconds between two rekeys (`REKEY_INTERVAL`). */
  const REKEY_INTERVAL: nat := 120

  type Nonce = Key
  type PublicKey = Key

  /** Domain-separation label of the protocol (`ProtocolDomains::PROTOCOL_DOMAIN`). */
  const PROTOCOL_DOMAIN_TEXT: string := "Daisyway v1 by Paul Spooren & Karolin Varner, Feb-2025 with Shake256"

  const DERIVE_KEY_TEXT: string := "derive key"

  /** `HashDomain::zero()`. */
  function ZeroDomain(): Key
  {
    ZeroKey()
  }

  /** `ProtocolDomains::root()`: the zero domain mixed with the protocol label. */
  function RootDomain(mix: MixFn): Key
  {
    mix(ZeroDomain(), Ascii(PROTOCOL_DOMAIN_TEXT))
  }

  /** `ProtocolDomains::derive_key()`: the root domain mixed with "derive key". */
  function DeriveKeyDomain(mix: MixFn): Key
  {
    mix(RootDomain(mix), Ascii(DERIVE_KEY_TEXT))
  }

  /** The PSK and the two WireGuard public keys of one tunnel end. */
  datatype ProtocolParameters = ProtocolParameters(psk: Key, localPeerId: PublicKey, remotePeerId: PublicKey)

  /** The two public keys of a tunnel, smaller first. */
  datatype WireGuardConnectionId = WireGuardConnectionId(firstPeer: PublicKey, secondPeer: PublicKey)

  /** `WireGuardConnectionId::new`: the two keys sorted in byte order. */
  function NewWireGuardConnectionId(selfKey: PublicKey, peerKey: PublicKey): (c: WireGuardConnectionId)
    ensures LexLe(c.firstPeer, c.secondPeer)
    ensures multiset{c.firstPeer, c.secondPeer} == multiset{selfKey, peerKey}
  {
    LexLeTotal(selfKey, peerKey);
    if LexLe(selfKey, peerKey) then WireGuardConnectionId(selfKey, peerKey)
    else WireGuardConnectionId(peerKey, selfKey)
  }

  /** Both ends of the tunnel compute the same connection id. */
  lemma ConnectionIdSymmetric(a: PublicKey, b: PublicKey)
    ensures NewWireGuardConnectionId(a, b) == NewWireGuardConnectionId(b, a)
  {
    LexLeTotal(a, b);
    if LexLe(a, b) && LexLe(b, a) {
      LexLeAntisymmetric(a, b);
    }
  }

  function ConnectionIdBytes(c: WireGuardConnectionId): (b: seq<Byte>)
    ensures |b| == 2 * KEY_LENGTH
  {
    c.firstPeer + c.secondPeer
  }

  /** The packed input of the key derivation. */
  datatype KdfInput = KdfInput(
    psk: Key,
    nonce: Nonce,
    qkdKey: Key,
    qkdKeyId: UuidBytes,
    connectionId: WireGuardConnectionId)

  /**
    `KdfInput::new`: the key id enters in its little-endian byte form, from
    which the id can be read back.
  */
  function NewKdfInput(psk: Key, nonce: Nonce, qkdKey: Etsi014Key, c: WireGuardConnectionId): (k: KdfInput)
    ensures ToBytesLe(k.qkdKeyId) == qkdKey.id
  {
    ToBytesLeInvolution(qkdKey.id);
    KdfInput(psk, nonce, qkdKey.key, ToBytesLe(qkdKey.id), c)
  }

  /** `KdfInput::as_bytes` of the packed struct: the fields back to back, 176 bytes. */
  function KdfInputBytes(k: KdfInput): (b: seq<Byte>)
    ensures |b| == 176
  {
    k.psk + k.nonce + k.qkdKey + k.qkdKeyId + ConnectionIdBytes(k.connectionId)
  }

  /** Reads the fields of a KDF input back from its bytes. */
  function ParseKdfInput(b: seq<Byte>): (k: KdfInput)
    requires |b| == 176
  {
    KdfInput(b[0..32], b[32..64], b[64..96], b[96..112],
             WireGuardConnectionId(b[112..144], b[144..176]))
  }

  /** Every field sits at its own offset, so the layout is injective. */
  lemma KdfInputLayout(k: KdfInput)
    ensures ParseKdfInput(KdfInputBytes(k)) == k
  {
    var b := KdfInputBytes(k);
    assert b[0..32] == k.psk;
    assert b[32..64] == k.nonce;
    assert b[64..96] == k.qkdKey;
    assert b[96..112] == k.qkdKeyId;
    assert b[112..144] == k.connectionId.firstPeer;
    assert b[144..176] == k.connectionId.secondPeer;
  }

  /** `derive_daisyway_key`. */
  function DeriveDaisywayKey(mix: MixFn, params: ProtocolParameters, nonce: Nonce, key: Etsi014Key): Key
  {
    var connectionId := NewWireGuardConnectionId(params.localPeerId, params.remotePeerId);
    mix(DeriveKeyDomain(mix), KdfInputBytes(NewKdfInput(params.psk, nonce, key, connectionId)))
  }

  /**
    The derived key depends only on the PSK, the nonce, the QKD key, its id and
    the unordered pair of public keys.
  */
  lemma DeriveDependsOnUnorderedPair(mix: MixFn, p: ProtocolParameters, q: ProtocolParameters, nonce: Nonce, key: Etsi014Key)
    requires p.psk == q.psk
    requires multiset{p.localPeerId, p.remotePeerId} == multiset{q.localPeerId, q.remotePeerId}
    ensures DeriveDaisywayKey(mix, p, nonce, key) == DeriveDaisywayKey(mix, q, nonce, key)
  {
    if p.localPeerId == q.localPeerId {
      assert p.remotePeerId == q.remotePeerId by {
        assert multiset{p.localPeerId, p.remotePeerId} - multiset{p.localPeerId} == multiset{p.remotePeerId};
        assert multiset{q.localPeerId, q.remotePeerId} - multiset{q.localPeerId} == multiset{q.remotePeerId};
      }
    } else {
      assert p.localPeerId in multiset{q.localPeerId, q.remotePeerId};
      assert q.localPeerId in multiset{p.localPeerId, p.remotePeerId};
      ConnectionIdSymmetric(p.localPeerId, p.remotePeerId);
    }
  }

  /**
    The two ends of a tunnel hold the same PSK and each other's public key as
    remote; given the same nonce and the same QKD key they derive the same key.
  */
  lemma PeersDeriveSameKey(mix: MixFn, server: ProtocolParameters, client: ProtocolParameters, nonce: Nonce, key: Etsi014Key)
    requires server.psk == client.psk
    requires server.localPeerId == client.remotePeerId && server.remotePeerId == client.localPeerId
    ensures DeriveDaisywayKey(mix, server, nonce, key) == DeriveDaisywayKey(mix, client, nonce, key)
  {
    ConnectionIdSymmetric(server.localPeerId, server.remotePeerId);
  }

  /**
    Different derivation inputs reach the hash as different bytes: the bytes
    determine the PSK, the nonce, the QKD key, its id and the unordered key pair.
  */
  lemma KdfInputDeterminesInputs(psk1: Key, n1: Nonce, k1: Etsi014Key, a1: PublicKey, b1: PublicKey,
                                 psk2: Key, n2: Nonce, k2: Etsi014Key, a2: PublicKey, b2: PublicKey)
    requires KdfInputBytes(NewKdfInput(psk1, n1, k1, NewWireGuardConnectionId(a1, b1)))
          == KdfInputBytes(NewKdfInput(psk2, n2, k2, NewWireGuardConnectionId(a2, b2)))
    ensures psk1 == psk2 && n1 == n2 && k1 == k2
    ensures multiset{a1, b1} == multiset{a2, b2}
  {
    var i1 := NewKdfInput(psk1, n1, k1, NewWireGuardConnectionId(a1, b1));
    var i2 := NewKdfInput(psk2, n2, k2, NewWireGuardConnectionId(a2, b2));
    KdfInputLayout(i1);
    KdfInputLayout(i2);
    ToBytesLeInjective(k1.id, k2.id);
  }

  /** `RekeyReq`: the QKD key id and a fresh nonce, sent by the TCP server. */
  datatype RekeyReq = RekeyReq(qkdKeyId: UuidBytes, nonce: Nonce)

  const REKEY_REQ_LENGTH: nat := 48

  /** The wire form: id bytes, then nonce bytes. */
  function RekeyReqBytes(r: RekeyReq): (b: seq<Byte>)
    ensures |b| == REKEY_REQ_LENGTH
    ensures b[..UUID_LENGTH] == r.qkdKeyId && b[UUID_LENGTH..] == r.nonce
  {
    r.qkdKeyId + r.nonce
  }

  /** A received 48-byte buffer read as a `RekeyReq`. */
  function ParseRekeyReq(b: seq<Byte>): RekeyReq
    requires |b| == REKEY_REQ_LENGTH
  {
    RekeyReq(b[..UUID_LENGTH], b[UUID_LENGTH..])
  }

  lemma RekeyReqRoundTrip(r: RekeyReq)
    ensures ParseRekeyReq(RekeyReqBytes(r)) == r
  {
  }

  lemma RekeyReqBytesRoundTrip(b: seq<Byte>)
    requires |b| == REKEY_REQ_LENGTH
    ensures RekeyReqBytes(ParseRekeyReq(b)) == b
  {
  }

  /** `RekeyReq::new(id)`: the given id with the nonce drawn by the caller's generator. */
  function NewRekeyReq(qkdKeyId: UuidBytes, random: Nonce): (r: RekeyReq)
    ensures r.qkdKeyId == qkdKeyId && r.nonce == random
  {
    RekeyReq(qkdKeyId, random)
  }

  /** `RekeyAck`: one byte sent back by the TCP client. */
  datatype RekeyAck = RekeyAck(dummyData: Byte)

  const REKEY_ACK: RekeyAck := RekeyAck(1)

  function RekeyAckBytes(a: RekeyAck): (b: seq<Byte>)
    ensures |b| == 1 && b[0] == a.dummyData
  {
    [a.dummyData]
  }

  /** `RekeyAck::validate`. */
  function ValidateAck(a: RekeyAck): (o: Outcome<Error>)
    ensures o.Pass? <==> a.dummyData == 1
    ensures o.Fail? ==> o.error == InvalidAck(a.dummyData as int)
  {
    if a == REKEY_ACK then Pass else Fail(InvalidAck(a.dummyData as int))
  }
}
