/**
  The server half of a rekey (`DaisywayServerProtocol`): fetch a fresh key
  from the QKD device, send its id and a random nonce to the peer, wait for
  the one-byte acknowledgement, and derive the output key. The random nonce
  of each rekey is an input.
*/
module ServerProtocol {
  import opened Bytes
  import opened Wrappers
  import opened Errors
  import opened Foreign
  import opened Etsi014
  import opened Crypto
  import opened Osk
  import opened Streams

  /**
    `negotiate_key` as a function of the device's answer and the stream: the
    result and the stream afterwards.
  */
  function ServerStep(mix: MixFn, params: ProtocolParameters, nonce: Nonce,
                      fetched: Result<Etsi014Key, Error>, st: StreamState): (r: (Result<Key, Error>, StreamState))
  {
    if fetched.Err? then (Err(fetched.error), st)
    else
      var (w, st1) := WriteAllSpec(st, RekeyReqBytes(NewRekeyReq(fetched.value.id, nonce)));
      if w.Fail? then (Err(w.error), st1)
      else
        var (ack, st2) := ReadExactSpec(st1, 1);
        if ack.Err? then (Err(ack.error), st2)
        else match ValidateAck(RekeyAck(ack.value[0]))
          case Fail(e) => (Err(e), st2)
          case Pass => (Ok(DeriveDaisywayKey(mix, params, nonce, fetched.value)), st2)
  }

  /**
    A key is derived only after the device gave a key, the request carrying
    its id and the nonce was written, and the peer acknowledged with the byte
    1; the key is the derivation from that nonce and that device key. Every
    failure is reported with its cause, and nothing is written when the
    device failed.
  */
  lemma ServerStepSpec(mix: MixFn, params: ProtocolParameters, nonce: Nonce,
                       fetched: Result<Etsi014Key, Error>, st: StreamState)
    ensures var r := ServerStep(mix, params, nonce, fetched, st);
      && (r.0.Ok? <==> fetched.Ok? && st.writable && |st.inbound| >= 1 && st.inbound[0] == 1)
      && (r.0.Ok? ==> r.0.value == DeriveDaisywayKey(mix, params, nonce, fetched.value))
      && (r.0.Ok? ==> r.1.inbound == st.inbound[1..])
      && (fetched.Ok? && st.writable ==>
            r.1.outbound == st.outbound + RekeyReqBytes(RekeyReq(fetched.value.id, nonce)))
      && (fetched.Err? ==> r.0 == Err(fetched.error) && r.1 == st)
      && (fetched.Ok? && !st.writable ==> r.0 == Err(Io(BrokenPipe)) && r.1 == st)
      && (fetched.Ok? && st.writable && st.inbound == [] ==> r.0 == Err(Io(UnexpectedEof)))
      && (fetched.Ok? && st.writable && |st.inbound| >= 1 && st.inbound[0] != 1 ==>
            r.0 == Err(InvalidAck(st.inbound[0] as int)))
  {
  }

  /** What one server lives on: its parameters, the hash, and its QKD device's address. */
  datatype ServerSetup = ServerSetup(mix: MixFn, params: ProtocolParameters,
                                     url: string, remoteSaeId: string, codecs: Codecs)

  /**
    Everything the server's rounds touch: the stream, the device's remaining
    answers, the targets requested, the output handler's remaining script,
    the keys handed to the handler with the device keys they came from, and
    the error that ended the loop, if any.
  */
  datatype ServerRun = ServerRun(stream: StreamState, device: seq<HttpResult>, requested: seq<Uri>,
                                 outcomes: seq<bool>, keys: seq<Key>, used: seq<Etsi014Key>,
                                 failure: Option<Error>)

  /** One pass of `event_loop`: negotiate, then hand the key to the handler; nothing after a failure. */
  ghost function ServerRound(setup: ServerSetup, s: ServerRun, nonce: Nonce): ServerRun
  {
    if s.failure.Some? then s
    else
      var fetched := KeyFromHttp(setup.codecs, AnswerOf(s.device));
      var (r, st) := ServerStep(setup.mix, setup.params, nonce, fetched, s.stream);
      var s1 := s.(stream := st, device := AfterAnswer(s.device),
                   requested := s.requested + [EncKeysUri(setup.url, setup.remoteSaeId)]);
      if r.Err? then s1.(failure := Some(r.error))
      else if !Accepted(s.outcomes) then s1.(outcomes := AfterOutcome(s.outcomes), failure := Some(OskRejected))
      else s1.(outcomes := AfterOutcome(s.outcomes), keys := s.keys + [r.value], used := s.used + [fetched.value])
  }

  /** What one round does to the keys, the device keys used and the requests. */
  lemma ServerRoundFacts(setup: ServerSetup, s: ServerRun, nonce: Nonce)
    ensures var e := ServerRound(setup, s, nonce);
      && (s.failure.Some? ==> e == s)
      && (s.failure.None? ==> e.requested == s.requested + [EncKeysUri(setup.url, setup.remoteSaeId)])
      && (e.failure.None? ==>
            && |e.used| == |s.used| + 1 && e.used[..|s.used|] == s.used
            && e.keys == s.keys + [DeriveDaisywayKey(setup.mix, setup.params, nonce, e.used[|s.used|])])
      && (e.failure.Some? ==> e.keys == s.keys && e.used == s.used)
      && (s.failure.None? && e.failure.None? ==> |e.keys| == |s.keys| + 1)
  {
    if s.failure.None? {
      ServerStepSpec(setup.mix, setup.params, nonce, KeyFromHttp(setup.codecs, AnswerOf(s.device)), s.stream);
    }
  }

  /** The rounds of `event_loop` with the given nonces, one per round. */
  ghost function ServerRounds(setup: ServerSetup, s: ServerRun, nonces: seq<Nonce>): ServerRun
  {
    if nonces == [] then s
    else ServerRound(setup, ServerRounds(setup, s, nonces[..|nonces| - 1]), nonces[|nonces| - 1])
  }

  lemma ServerRoundsSnoc(setup: ServerSetup, s: ServerRun, nonces: seq<Nonce>, i: nat)
    requires i < |nonces|
    ensures ServerRounds(setup, s, nonces[..i + 1]) == ServerRound(setup, ServerRounds(setup, s, nonces[..i]), nonces[i])
  {
    assert nonces[..i + 1][..i] == nonces[..i];
  }

  /** Once a round failed, the loop has ended: later rounds change nothing. */
  lemma {:induction false} ServerFailureEndsLoop(setup: ServerSetup, s: ServerRun, nonces: seq<Nonce>, i: nat)
    requires i <= |nonces|
    requires ServerRounds(setup, s, nonces[..i]).failure.Some?
    ensures ServerRounds(setup, s, nonces) == ServerRounds(setup, s, nonces[..i])
  {
    if i < |nonces| {
      var p := nonces[..|nonces| - 1];
      assert p[..i] == nonces[..i];
      ServerFailureEndsLoop(setup, s, p, i);
    } else {
      assert nonces[..i] == nonces;
    }
  }

  /**
    Every key handed to the output handler so far is the derivation from its
    round's nonce and the key the device gave in that round.
  */
  ghost predicate KeysDerived(setup: ServerSetup, nonces: seq<Nonce>, e: ServerRun)
  {
    && |e.keys| == |e.used| <= |nonces|
    && forall i :: 0 <= i < |e.keys| ==> e.keys[i] == DeriveDaisywayKey(setup.mix, setup.params, nonces[i], e.used[i])
  }

  /**
    After `earlier` requests, the device was asked for one new key per round
    attempted, with the `enc_keys` request: as many as keys handed out, plus
    the failed round.
  */
  ghost predicate KeysRequested(setup: ServerSetup, earlier: nat, e: ServerRun)
  {
    && |e.requested| == earlier + (if e.failure.None? then |e.keys| else |e.keys| + 1)
    && forall i :: earlier <= i < |e.requested| ==> e.requested[i] == EncKeysUri(setup.url, setup.remoteSaeId)
  }

  lemma ServerRoundKeepsKeysDerived(setup: ServerSetup, nonces: seq<Nonce>, s: ServerRun)
    requires |nonces| > 0
    requires s.failure.None? ==> |s.keys| == |nonces| - 1
    requires KeysDerived(setup, nonces[..|nonces| - 1], s)
    ensures KeysDerived(setup, nonces, ServerRound(setup, s, nonces[|nonces| - 1]))
  {
    var e := ServerRound(setup, s, nonces[|nonces| - 1]);
    ServerRoundFacts(setup, s, nonces[|nonces| - 1]);
    forall i | 0 <= i < |e.keys|
      ensures e.keys[i] == DeriveDaisywayKey(setup.mix, setup.params, nonces[i], e.used[i])
    {
      if i < |s.keys| {
        assert e.keys[i] == s.keys[i] && e.used[i] == s.used[i] && nonces[..|nonces| - 1][i] == nonces[i];
      }
    }
  }

  lemma ServerRoundKeepsKeysRequested(setup: ServerSetup, earlier: nat, s: ServerRun, nonce: Nonce)
    requires KeysRequested(setup, earlier, s)
    ensures KeysRequested(setup, earlier, ServerRound(setup, s, nonce))
  {
    ServerRoundFacts(setup, s, nonce);
  }

  /**
    The keys handed to the output handler are, round by round, the derivation
    from that round's nonce and the key the device gave; the device is asked
    for one new key per round attempted; the loop runs every round unless one
    fails.
  */
  lemma {:induction false} ServerRoundsKeys(setup: ServerSetup, s: ServerRun, nonces: seq<Nonce>)
    requires s.failure.None? && s.keys == [] && s.used == []
    ensures var e := ServerRounds(setup, s, nonces);
      && KeysDerived(setup, nonces, e) && KeysRequested(setup, |s.requested|, e)
      && (e.failure.None? ==> |e.keys| == |nonces|)
  {
    if nonces != [] {
      var p := nonces[..|nonces| - 1];
      ServerRoundsKeys(setup, s, p);
      var e0 := ServerRounds(setup, s, p);
      ServerRoundKeepsKeysDerived(setup, nonces, e0);
      ServerRoundKeepsKeysRequested(setup, |s.requested|, e0, nonces[|nonces| - 1]);
      ServerRoundFacts(setup, e0, nonces[|nonces| - 1]);
    }
  }

  class DaisywayServerProtocol {
    const protocolParams: ProtocolParameters
    const mix: MixFn
    const stream: Stream
    const etsiClient: Etsi014Connection
    const oskHandler: OskHandler
    const rekeyInterval: nat

    constructor (protocolParams: ProtocolParameters, mix: MixFn, stream: Stream,
                 etsiClient: Etsi014Connection, oskHandler: OskHandler, rekeyInterval: nat)
      ensures this.protocolParams == protocolParams && this.mix == mix && this.stream == stream
      ensures this.etsiClient == etsiClient && this.oskHandler == oskHandler
      ensures this.rekeyInterval == rekeyInterval
    {
      this.protocolParams := protocolParams;
      this.mix := mix;
      this.stream := stream;
      this.etsiClient := etsiClient;
      this.oskHandler := oskHandler;
      this.rekeyInterval := rekeyInterval;
    }

    /** `negotiate_key`, with `nonce` the random nonce of `RekeyReq::new`. */
    method NegotiateKey(nonce: Nonce) returns (r: Result<Key, Error>)
      modifies stream, etsiClient
      ensures etsiClient.requested == old(etsiClient.requested) + [EncKeysUri(etsiClient.url, etsiClient.remoteSaeId)]
      ensures etsiClient.device == old(etsiClient.RemainingAfterNext())
      ensures (r, stream.State())
           == ServerStep(mix, protocolParams, nonce, KeyFromHttp(etsiClient.codecs, old(etsiClient.NextAnswer())), old(stream.State()))
    {
      var fetched := etsiClient.FetchAnyKey();
      if fetched.Err? {
        return Err(fetched.error);
      }
      var key := fetched.value;
      var rekeyReq := NewRekeyReq(key.id, nonce);
      var w := stream.WriteAll(RekeyReqBytes(rekeyReq));
      if w.Fail? {
        return Err(w.error);
      }
      var ack := new Byte[1](_ => 0);
      var rd := stream.ReadExact(ack);
      if rd.Fail? {
        return Err(rd.error);
      }
      var v := ValidateAck(RekeyAck(ack[0]));
      if v.Fail? {
        return Err(v.error);
      }
      r := Ok(DeriveDaisywayKey(mix, protocolParams, nonce, key));
    }

    function Setup(): ServerSetup
    {
      ServerSetup(mix, protocolParams, etsiClient.url, etsiClient.remoteSaeId, etsiClient.codecs)
    }

    /** The state the rounds act on, as it stands, with `keys` handed out so far and no failure. */
    function Now(keys: seq<Key>, used: seq<Etsi014Key>): ServerRun
      reads stream, etsiClient, oskHandler
    {
      ServerRun(stream.State(), etsiClient.device, etsiClient.requested, oskHandler.outcomes, keys, used, None)
    }

    /** One pass of `event_loop`'s body: negotiate a key and hand it to the output handler. */
    method Round(nonce: Nonce, ghost before: ServerRun) returns (r: Result<Key, Error>)
      requires before == Now(before.keys, before.used)
      modifies stream, etsiClient, oskHandler
      ensures var e := ServerRound(Setup(), before, nonce);
        && (r.Ok? <==> e.failure.None?)
        && (r.Err? ==> e.failure == Some(r.error) && e.keys == before.keys)
        && (r.Ok? ==> e.keys == before.keys + [r.value])
        && Now(e.keys, e.used) == e.(failure := None)
      ensures oskHandler.calls == old(oskHandler.calls) + (if r.Ok? then [OskCall(r.value, Fresh)] else [])
    {
      r := NegotiateKey(nonce);
      if r.Ok? {
        var a := oskHandler.SetFreshOsk(r.value);
        if a.Fail? {
          r := Err(a.error);
        }
      }
    }

    /**
      `event_loop`, for as many rounds as `nonces` holds (the random nonce of
      each rekey): every negotiated key goes to the output handler as a fresh
      key, the sleep between rounds is not modelled, and the loop stops at the
      first error with that error.
    */
    method EventLoop(nonces: seq<Nonce>) returns (o: Outcome<Error>, keys: seq<Key>)
      modifies stream, etsiClient, oskHandler
      ensures var e := ServerRounds(Setup(), old(Now([], [])), nonces);
        && keys == e.keys
        && (o.Pass? <==> e.failure.None?)
        && (o.Fail? ==> o.error == e.failure.value)
        && Now(keys, e.used) == e.(failure := None)
      ensures oskHandler.calls == old(oskHandler.calls) + FreshCalls(keys)
    {
      ghost var start := Now([], []);
      ghost var used: seq<Etsi014Key> := [];
      keys := [];
      var i := 0;
      while i < |nonces|
        invariant 0 <= i <= |nonces|
        invariant ServerRounds(Setup(), start, nonces[..i]) == Now(keys, used)
        invariant oskHandler.calls == old(oskHandler.calls) + FreshCalls(keys)
      {
        ServerRoundsSnoc(Setup(), start, nonces, i);
        ghost var before := Now(keys, used);
        var r := Round(nonces[i], before);
        ghost var e := ServerRound(Setup(), before, nonces[i]);
        assert e == ServerRounds(Setup(), start, nonces[..i + 1]);
        if r.Err? {
          ServerFailureEndsLoop(Setup(), start, nonces, i + 1);
          return Fail(r.error), keys;
        }
        FreshCallsSnoc(old(oskHandler.calls), keys, r.value);
        keys := keys + [r.value];
        used := e.used;
        i := i + 1;
      }
      assert nonces[..i] == nonces;
      o := Pass;
    }
  }
}
