/**
  The client half of a rekey (`DaisywayClientProtocol`): read the peer's
  48-byte request, fetch the key it names from the local QKD device, send the
  one-byte acknowledgement, and derive the output key with the nonce that
  came with the request. Also the agreement of the two halves: the key the
  client derives is the key the server derives.
*/
module ClientProtocol {
  import opened Bytes
  import opened Wrappers
  import opened Errors
  import opened Foreign
  import opened Etsi014
  import opened Crypto
  import opened Osk
  import opened Streams
  import opened ServerProtocol

  /**
    `wait_for_key_negotiation` as a function of the device's answer and the
    stream: the result, the stream afterwards, and the request read, if the
    read succeeded (the device is asked for a key only then).
  */
  function ClientStep(mix: MixFn, params: ProtocolParameters,
                      fetched: Result<Etsi014Key, Error>, st: StreamState): (r: (Result<Key, Error>, StreamState, Option<RekeyReq>))
  {
    var (rd, st1) := ReadExactSpec(st, REKEY_REQ_LENGTH);
    if rd.Err? then (Err(rd.error), st1, None)
    else
      var req := ParseRekeyReq(rd.value);
      if fetched.Err? then (Err(fetched.error), st1, Some(req))
      else
        var (w, st2) := WriteAllSpec(st1, RekeyAckBytes(REKEY_ACK));
        if w.Fail? then (Err(w.error), st2, Some(req))
        else (Ok(DeriveDaisywayKey(mix, params, req.nonce, fetched.value)), st2, Some(req))
  }

  /**
    The client reads exactly one request; a short read is an error before
    any key is fetched. The acknowledgement is the byte 1 and is written only
    after the device gave a key. The key derived uses the nonce of the request
    and the device's key.
  */
  lemma ClientStepSpec(mix: MixFn, params: ProtocolParameters, fetched: Result<Etsi014Key, Error>, st: StreamState)
    ensures var (r, st', req) := ClientStep(mix, params, fetched, st);
      && (req.Some? <==> |st.inbound| >= REKEY_REQ_LENGTH)
      && (req.Some? ==> RekeyReqBytes(req.value) == st.inbound[..REKEY_REQ_LENGTH]
                        && st'.inbound == st.inbound[REKEY_REQ_LENGTH..])
      && (req.None? ==> r == Err(Io(UnexpectedEof)) && st'.outbound == st.outbound)
      && (r.Ok? <==> req.Some? && fetched.Ok? && st.writable)
      && (r.Ok? ==> r.value == DeriveDaisywayKey(mix, params, req.value.nonce, fetched.value))
      && (req.Some? && fetched.Err? ==> r == Err(fetched.error))
      && (st'.outbound == if req.Some? && fetched.Ok? && st.writable then st.outbound + [1] else st.outbound)
  {
    if |st.inbound| >= REKEY_REQ_LENGTH {
      RekeyReqBytesRoundTrip(st.inbound[..REKEY_REQ_LENGTH]);
    }
  }

  /**
    The protocol's central property. The two ends of a tunnel hold the same
    PSK and each other's public key as remote, and both QKD devices hand out
    the same key `k`. The server's request reaches the client first, and the
    client's acknowledgement reaches the server first. Then the client asks
    its device for the key the server's device issued, and both ends derive
    the same output key.
  */
  lemma RekeyAgreement(mix: MixFn, sp: ProtocolParameters, cp: ProtocolParameters, nonce: Nonce,
                       k: Etsi014Key, sst: StreamState, cst: StreamState)
    requires sp.psk == cp.psk && sp.localPeerId == cp.remotePeerId && sp.remotePeerId == cp.localPeerId
    requires sst.writable && cst.writable
    requires ServerStep(mix, sp, nonce, Ok(k), sst).1.outbound[|sst.outbound|..] <= cst.inbound
    requires ClientStep(mix, cp, Ok(k), cst).1.outbound[|cst.outbound|..] <= sst.inbound
    ensures var (sr, _) := ServerStep(mix, sp, nonce, Ok(k), sst);
      var (cr, _, req) := ClientStep(mix, cp, Ok(k), cst);
      && req == Some(RekeyReq(k.id, nonce))
      && sr.Ok? && cr.Ok? && sr.value == cr.value
  {
    var sent := RekeyReqBytes(RekeyReq(k.id, nonce));
    ServerStepSpec(mix, sp, nonce, Ok(k), sst);
    assert ServerStep(mix, sp, nonce, Ok(k), sst).1.outbound[|sst.outbound|..] == sent;
    assert cst.inbound[..REKEY_REQ_LENGTH] == sent;
    ClientStepSpec(mix, cp, Ok(k), cst);
    RekeyReqRoundTrip(RekeyReq(k.id, nonce));
    assert ClientStep(mix, cp, Ok(k), cst).1.outbound[|cst.outbound|..] == [1];
    ServerStepSpec(mix, sp, nonce, Ok(k), sst);
    PeersDeriveSameKey(mix, sp, cp, nonce, k);
  }

  /** What one client lives on: its parameters, the hash, and its QKD device's address. */
  datatype ClientSetup = ClientSetup(mix: MixFn, params: ProtocolParameters,
                                     url: string, remoteSaeId: string, codecs: Codecs)

  /**
    Everything the client's rounds touch: the stream, the device's remaining
    answers, the targets requested, the output handler's remaining script,
    the keys handed to the handler with the requests and device keys they
    came from, and the error that ended the loop, if any.
  */
  datatype ClientRun = ClientRun(stream: StreamState, device: seq<HttpResult>, requested: seq<Uri>,
                                 outcomes: seq<bool>, keys: seq<Key>, received: seq<RekeyReq>,
                                 used: seq<Etsi014Key>, failure: Option<Error>)

  /** One pass of `event_loop`: wait for a negotiation, then hand the key over; nothing after a failure. */
  ghost function ClientRound(setup: ClientSetup, s: ClientRun): ClientRun
  {
    if s.failure.Some? then s
    else
      var fetched := KeyFromHttp(setup.codecs, AnswerOf(s.device));
      var (r, st, req) := ClientStep(setup.mix, setup.params, fetched, s.stream);
      if req.None? then s.(stream := st, failure := Some(r.error))
      else
        var s1 := s.(stream := st, device := AfterAnswer(s.device),
                     requested := s.requested + [DecKeysUri(setup.url, setup.remoteSaeId, req.value.qkdKeyId)]);
        if r.Err? then s1.(failure := Some(r.error))
        else if !Accepted(s.outcomes) then s1.(outcomes := AfterOutcome(s.outcomes), failure := Some(OskRejected))
        else s1.(outcomes := AfterOutcome(s.outcomes), keys := s.keys + [r.value],
                 received := s.received + [req.value], used := s.used + [fetched.value])
  }

  /** `n` rounds of `event_loop`. */
  ghost function ClientRounds(setup: ClientSetup, s: ClientRun, n: nat): ClientRun
  {
    if n == 0 then s else ClientRound(setup, ClientRounds(setup, s, n - 1))
  }

  /** What one round does to the keys, the requests received and the targets requested. */
  lemma ClientRoundFacts(setup: ClientSetup, s: ClientRun)
    ensures var e := ClientRound(setup, s);
      && (s.failure.Some? ==> e == s)
      && (e.failure.Some? ==> e.keys == s.keys && e.received == s.received && e.used == s.used)
      && (s.failure.None? && e.failure.None? ==>
            && |e.keys| == |s.keys| + 1 && e.keys[..|s.keys|] == s.keys
            && |e.received| == |s.received| + 1 && e.received[..|s.received|] == s.received
            && |e.used| == |s.used| + 1 && e.used[..|s.used|] == s.used
            && e.keys[|s.keys|] == DeriveDaisywayKey(setup.mix, setup.params, e.received[|s.received|].nonce, e.used[|s.used|])
            && e.requested == s.requested + [DecKeysUri(setup.url, setup.remoteSaeId, e.received[|s.received|].qkdKeyId)])
      && (s.failure.None? && e.failure.Some? ==>
            e.requested == s.requested || (|e.requested| == |s.requested| + 1 && e.requested[..|s.requested|] == s.requested))
  {
    if s.failure.None? {
      ClientStepSpec(setup.mix, setup.params, KeyFromHttp(setup.codecs, AnswerOf(s.device)), s.stream);
    }
  }

  /** Once a round failed, the loop has ended: later rounds change nothing. */
  lemma {:induction false} ClientFailureEndsLoop(setup: ClientSetup, s: ClientRun, n: nat, i: nat)
    requires i <= n
    requires ClientRounds(setup, s, i).failure.Some?
    ensures ClientRounds(setup, s, n) == ClientRounds(setup, s, i)
  {
    if i < n {
      ClientFailureEndsLoop(setup, s, n - 1, i);
    }
  }

  /**
    Every key handed to the output handler so far is the derivation from the
    nonce of the request read in its round and the key the device gave for it.
  */
  ghost predicate KeysDerived(setup: ClientSetup, e: ClientRun)
  {
    && |e.keys| == |e.received| == |e.used|
    && forall i :: 0 <= i < |e.keys| ==>
         e.keys[i] == DeriveDaisywayKey(setup.mix, setup.params, e.received[i].nonce, e.used[i])
  }

  /**
    The device was asked, in order and after `earlier` requests, for exactly
    the key ids the requests named, plus at most one more in a failed round.
  */
  ghost predicate KeysRequested(setup: ClientSetup, earlier: nat, e: ClientRun)
  {
    && |e.received| == |e.keys|
    && earlier + |e.keys| <= |e.requested| <= earlier + |e.keys| + 1
    && (e.failure.None? ==> |e.requested| == earlier + |e.keys|)
    && forall i :: 0 <= i < |e.keys| ==>
         e.requested[earlier + i] == DecKeysUri(setup.url, setup.remoteSaeId, e.received[i].qkdKeyId)
  }

  lemma ClientRoundKeepsKeysDerived(setup: ClientSetup, s: ClientRun)
    requires KeysDerived(setup, s)
    ensures KeysDerived(setup, ClientRound(setup, s))
  {
    var e := ClientRound(setup, s);
    ClientRoundFacts(setup, s);
    if s.failure.None? && e.failure.None? {
      forall i | 0 <= i < |e.keys|
        ensures e.keys[i] == DeriveDaisywayKey(setup.mix, setup.params, e.received[i].nonce, e.used[i])
      {
        if i < |s.keys| {
          assert e.keys[i] == s.keys[i] && e.received[i] == s.received[i] && e.used[i] == s.used[i];
        }
      }
    }
  }

  lemma ClientRoundKeepsKeysRequested(setup: ClientSetup, earlier: nat, s: ClientRun)
    requires KeysRequested(setup, earlier, s)
    ensures KeysRequested(setup, earlier, ClientRound(setup, s))
  {
    var e := ClientRound(setup, s);
    ClientRoundFacts(setup, s);
    if s.failure.None? {
      forall i | 0 <= i < |e.keys|
        ensures e.requested[earlier + i] == DecKeysUri(setup.url, setup.remoteSaeId, e.received[i].qkdKeyId)
      {
        if i < |s.keys| {
          assert e.requested[earlier + i] == s.requested[earlier + i] && e.received[i] == s.received[i];
        }
      }
    }
  }

  /**
    The keys handed to the output handler are, round by round, the
    derivation from the nonce of the request read in that round and the key
    the device gave for it; the device was asked, in order, for exactly the
    key ids the requests named; the loop runs every round unless one fails.
  */
  lemma {:induction false} ClientRoundsKeys(setup: ClientSetup, s: ClientRun, n: nat)
    requires s.failure.None? && s.keys == [] && s.received == [] && s.used == []
    ensures var e := ClientRounds(setup, s, n);
      && KeysDerived(setup, e) && KeysRequested(setup, |s.requested|, e)
      && |e.keys| <= n && (e.failure.None? ==> |e.keys| == n)
  {
    if n > 0 {
      ClientRoundsKeys(setup, s, n - 1);
      var e0 := ClientRounds(setup, s, n - 1);
      ClientRoundKeepsKeysDerived(setup, e0);
      ClientRoundKeepsKeysRequested(setup, |s.requested|, e0);
      ClientRoundFacts(setup, e0);
    }
  }

  class DaisywayClientProtocol {
    const protocolParams: ProtocolParameters
    const mix: MixFn
    const stream: Stream
    const etsiClient: Etsi014Connection
    const oskHandler: OskHandler

    constructor (protocolParams: ProtocolParameters, mix: MixFn, stream: Stream,
                 etsiClient: Etsi014Connection, oskHandler: OskHandler)
      ensures this.protocolParams == protocolParams && this.mix == mix && this.stream == stream
      ensures this.etsiClient == etsiClient && this.oskHandler == oskHandler
    {
      this.protocolParams := protocolParams;
      this.mix := mix;
      this.stream := stream;
      this.etsiClient := etsiClient;
      this.oskHandler := oskHandler;
    }

    function Setup(): ClientSetup
    {
      ClientSetup(mix, protocolParams, etsiClient.url, etsiClient.remoteSaeId, etsiClient.codecs)
    }

    /** The state the rounds act on, as it stands, with no failure. */
    function Now(keys: seq<Key>, received: seq<RekeyReq>, used: seq<Etsi014Key>): ClientRun
      reads stream, etsiClient, oskHandler
    {
      ClientRun(stream.State(), etsiClient.device, etsiClient.requested, oskHandler.outcomes, keys, received, used, None)
    }

    /**
      `wait_for_key_negotiation`: the request is read into a zeroed 48-byte
      buffer, and the device is asked for the key the request names
      (`Uuid::from_bytes` of its id bytes) only when the read succeeded.
    */
    method WaitForKeyNegotiation() returns (r: Result<Key, Error>)
      modifies stream, etsiClient
      ensures var (res, st, req) := ClientStep(mix, protocolParams, KeyFromHttp(etsiClient.codecs, old(etsiClient.NextAnswer())), old(stream.State()));
        && r == res && stream.State() == st
        && (req.None? ==> etsiClient.device == old(etsiClient.device) && etsiClient.requested == old(etsiClient.requested))
        && (req.Some? ==>
              && etsiClient.device == old(etsiClient.RemainingAfterNext())
              && etsiClient.requested == old(etsiClient.requested) + [DecKeysUri(etsiClient.url, etsiClient.remoteSaeId, req.value.qkdKeyId)])
    {
      var buf := new Byte[REKEY_REQ_LENGTH](_ => 0);
      var rd := stream.ReadExact(buf);
      if rd.Fail? {
        return Err(rd.error);
      }
      var rekeyReq := ParseRekeyReq(buf[..]);
      var nonce := rekeyReq.nonce;
      var key := etsiClient.FetchSpecificKey(rekeyReq.qkdKeyId);
      if key.Err? {
        return Err(key.error);
      }
      var w := stream.WriteAll(RekeyAckBytes(REKEY_ACK));
      if w.Fail? {
        return Err(w.error);
      }
      r := Ok(DeriveDaisywayKey(mix, protocolParams, nonce, key.value));
    }

    /** One pass of `event_loop`'s body: wait for a negotiation and hand the key to the output handler. */
    method Round(ghost before: ClientRun) returns (r: Result<Key, Error>)
      requires before == Now(before.keys, before.received, before.used)
      modifies stream, etsiClient, oskHandler
      ensures var e := ClientRound(Setup(), before);
        && (r.Ok? <==> e.failure.None?)
        && (r.Err? ==> e.failure == Some(r.error) && e.keys == before.keys)
        && (r.Ok? ==> e.keys == before.keys + [r.value])
        && Now(e.keys, e.received, e.used) == e.(failure := None)
      ensures oskHandler.calls == old(oskHandler.calls) + (if r.Ok? then [OskCall(r.value, Fresh)] else [])
    {
      r := WaitForKeyNegotiation();
      if r.Ok? {
        var a := oskHandler.SetFreshOsk(r.value);
        if a.Fail? {
          r := Err(a.error);
        }
      }
    }

    /**
      `event_loop`, for `rounds` rounds: every key negotiated goes to the
      output handler as a fresh key, and the loop stops at the first error
      with that error.
    */
    method EventLoop(rounds: nat) returns (o: Outcome<Error>, keys: seq<Key>)
      modifies stream, etsiClient, oskHandler
      ensures var e := ClientRounds(Setup(), old(Now([], [], [])), rounds);
        && keys == e.keys
        && (o.Pass? <==> e.failure.None?)
        && (o.Fail? ==> o.error == e.failure.value)
        && Now(keys, e.received, e.used) == e.(failure := None)
      ensures oskHandler.calls == old(oskHandler.calls) + FreshCalls(keys)
    {
      ghost var start := Now([], [], []);
      ghost var received: seq<RekeyReq> := [];
      ghost var used: seq<Etsi014Key> := [];
      keys := [];
      var i := 0;
      while i < rounds
        invariant 0 <= i <= rounds
        invariant ClientRounds(Setup(), start, i) == Now(keys, received, used)
        invariant oskHandler.calls == old(oskHandler.calls) + FreshCalls(keys)
      {
        ghost var before := Now(keys, received, used);
        var r := Round(before);
        ghost var e := ClientRound(Setup(), before);
        assert e == ClientRounds(Setup(), start, i + 1);
        if r.Err? {
          ClientFailureEndsLoop(Setup(), start, rounds, i + 1);
          return Fail(r.error), keys;
        }
        FreshCallsSnoc(old(oskHandler.calls), keys, r.value);
        keys := keys + [r.value];
        received := e.received;
        used := e.used;
        i := i + 1;
      }
      o := Pass;
    }
  }
}
