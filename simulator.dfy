/**
  The QKD simulator: a stand-in for an ETSI GS QKD 014 key management
  entity. `enc_keys` issues a key whose id is the value of a counter that
  starts at 1; `dec_keys` hands out the key of a given id again. The key of
  an id is the id's 16 bytes twice, so no key store is needed. TLS, the
  listener and the HTTP framing are not modelled: a request is its path and
  optional query, and a reply its status and body.
*/
module Simulator {
  import opened Bytes
  import opened Wrappers
  import opened Errors
  import opened Uuids
  import opened Foreign
  import opened Etsi014

  /** The range of the `AtomicU64` counter: `fetch_add` wraps around at 2^64. */
  const COUNTER_MODULUS: nat := 0x1_0000_0000_0000_0000

  /** Every counter value is a valid argument of `Uuid::from_u128`. */
  lemma CounterFitsUuid()
    ensures COUNTER_MODULUS <= Pow256(UUID_LENGTH)
  {
    assert Pow256(2) == 0x1_0000;
    assert Pow256(4) == 0x1_0000_0000 by {
      assert Pow256(3) == 256 * Pow256(2);
    }
    assert Pow256(8) == COUNTER_MODULUS by {
      assert Pow256(5) == 256 * Pow256(4);
      assert Pow256(6) == 256 * Pow256(5);
      assert Pow256(7) == 256 * Pow256(6);
    }
    MonotonePow256(8, UUID_LENGTH);
  }

  lemma {:induction false} MonotonePow256(m: nat, n: nat)
    requires m <= n
    ensures Pow256(m) <= Pow256(n)
    decreases n
  {
    if m < n {
      MonotonePow256(m, n - 1);
    }
  }

  /** `Uuid::from_u128(count as u128)`: the id `enc_keys` issues for a counter value. */
  function IdOf(count: nat): (id: Uuid)
    requires count < COUNTER_MODULUS
    ensures BigEndianValue(id) == count
  {
    CounterFitsUuid();
    BigEndianRoundTrip(count, UUID_LENGTH);
    FromU128(count)
  }

  /** `t` occurs in `s` starting at position `j`. */
  predicate OccursAt(s: string, t: string, j: nat)
  {
    j + |t| <= |s| && s[j..j + |t|] == t
  }

  /**
    `str::find`: the first position at or after `from` where `t` occurs in
    `s`, or `None`.
  */
  function FindFrom(s: string, t: string, from: nat): (r: Option<nat>)
    requires from <= |s|
    ensures r.Some? ==> from <= r.value && OccursAt(s, t, r.value)
    ensures r.Some? ==> forall j: nat :: from <= j < r.value ==> !OccursAt(s, t, j)
    ensures r.None? ==> forall j: nat :: from <= j ==> !OccursAt(s, t, j)
    decreases |s| - from
  {
    if from + |t| > |s| then None
    else if s[from..from + |t|] == t then Some(from)
    else FindFrom(s, t, from + 1)
  }

  function Find(s: string, t: string): Option<nat>
  {
    FindFrom(s, t, 0)
  }

  /** `str::contains`. */
  predicate Contains(s: string, t: string)
  {
    Find(s, t).Some?
  }

  /** `t` is contained in `s` exactly when it occurs somewhere in it. */
  lemma ContainsSpec(s: string, t: string)
    ensures Contains(s, t) <==> exists j: nat :: OccursAt(s, t, j)
  {
  }

  /** A string ending with `t` contains `t`. */
  lemma ContainsSuffix(s: string, t: string)
    ensures Contains(s + t, t)
  {
    var st := s + t;
    assert OccursAt(st, t, |s|);
  }

  const KEY_ID_PARAMETER: string := "key_ID="
  const DEC_KEYS: string := "dec_keys"
  const ENC_KEYS: string := "enc_keys"

  /** The body of a reply: nothing, a plain-text message, or the JSON key container. */
  datatype ReplyBody = NoBody | Message(text: string) | Keys(container: ResponseKeys)

  datatype Reply = Reply(status: nat, body: ReplyBody)

  /** `bad_request(msg)`. */
  function BadRequest(msg: string): Reply
  {
    Reply(400, Message(msg))
  }

  /** The key material of an id: its 16 bytes, then the same 16 bytes again. */
  function KeyMaterial(id: Uuid): (k: Key)
    ensures k[..UUID_LENGTH] == id && k[UUID_LENGTH..] == id
  {
    id + id
  }

  /** The successful reply: one key, with its id and the Base64 text of its material. */
  function KeyReply(c: Codecs, id: Uuid): Reply
  {
    Reply(200, Keys(ResponseKeys([ResponseKey(id, c.base64Encode(KeyMaterial(id)))])))
  }

  /** How the key id is chosen: the key named in a `dec_keys` query, a new id for `enc_keys`, or a bad request. */
  datatype KeyIdChoice = Named(id: Uuid) | Issue | Refuse(reply: Reply)

  /**
    `dec_keys` wins when the path contains both words. Its query must be
    present and hold `key_ID=`, and what follows the first `key_ID=` must
    parse as a UUID; `number` and `key_length` are never looked at.
  */
  function ChooseKeyId(c: Codecs, path: string, query: Option<string>): KeyIdChoice
  {
    if Contains(path, DEC_KEYS) then
      match query
      case None => Refuse(BadRequest("key_ID parameter is required"))
      case Some(q) =>
        match Find(q, KEY_ID_PARAMETER)
        case None => Refuse(BadRequest("Invalid key_ID format"))
        case Some(pos) =>
          match c.uuidParse(q[pos + |KEY_ID_PARAMETER|..])
          case None => Refuse(BadRequest("Invalid key_ID format"))
          case Some(id) => Named(id)
    else Issue
  }

  /**
    `handle_request` and `handle_keys` as a function of the counter: the
    reply and the new counter value.
  */
  function Route(c: Codecs, path: string, query: Option<string>, counter: nat): (Reply, nat)
    requires counter < COUNTER_MODULUS
  {
    if !(KEYS_PREFIX <= path) then (Reply(404, NoBody), counter)
    else if !Contains(path, DEC_KEYS) && !Contains(path, ENC_KEYS) then
      (BadRequest("Only one of /dec_keys or /enc_keys is allowed"), counter)
    else match ChooseKeyId(c, path, query)
      case Refuse(reply) => (reply, counter)
      case Named(id) => (KeyReply(c, id), counter)
      case Issue => (KeyReply(c, IdOf(counter)), (counter + 1) % COUNTER_MODULUS)
  }

  /**
    Which requests get which status: 404 outside `/api/v1/keys/`, 400 when
    the path names neither operation or a `dec_keys` query does not name a
    key, and 200 otherwise, with a body holding exactly one key. Only a
    successful `enc_keys` request moves the counter, by one modulo 2^64.
  */
  lemma RouteSpec(c: Codecs, path: string, query: Option<string>, counter: nat)
    requires counter < COUNTER_MODULUS
    ensures var (reply, next) := Route(c, path, query, counter);
      && (reply.status == 404 <==> !(KEYS_PREFIX <= path))
      && (reply.status == 400 <==>
            KEYS_PREFIX <= path
            && (!(Contains(path, DEC_KEYS) || Contains(path, ENC_KEYS))
                || ChooseKeyId(c, path, query).Refuse?))
      && (reply.status in {200, 400, 404})
      && (reply.status == 200 ==> reply.body.Keys? && |reply.body.container.keys| == 1)
      && (next != counter <==> reply.status == 200 && !Contains(path, DEC_KEYS))
      && (next != counter ==> next == (counter + 1) % COUNTER_MODULUS)
  {
  }

  /**
    A `dec_keys` request whose query names a key by its text (which the
    UUID parser reads back) is answered with that key: the reply is the same as the one `enc_keys` gave when it
    issued the id.
  */
  lemma DecKeysReturnsIssuedKey(c: Codecs, path: string, before: string, id: Uuid, counter: nat)
    requires c.uuidParse(Text(id)) == Some(id)
    requires counter < COUNTER_MODULUS
    requires KEYS_PREFIX <= path && Contains(path, DEC_KEYS)
    requires Find(before, KEY_ID_PARAMETER).None?
    ensures Route(c, path, Some(before + KEY_ID_PARAMETER + Text(id)), counter) == (KeyReply(c, id), counter)
  {
    var q := before + KEY_ID_PARAMETER + Text(id);
    assert q == before + (KEY_ID_PARAMETER + Text(id));
    assert KEY_ID_PARAMETER <= KEY_ID_PARAMETER + Text(id);
    FindAfter(before, KEY_ID_PARAMETER + Text(id));
    assert q[|before| + |KEY_ID_PARAMETER|..] == Text(id);
    assert ChooseKeyId(c, path, Some(q)) == Named(id);
  }

  /**
    `key_ID=` not found in `a`, and `b` starting with it: the first
    `key_ID=` of `a + b` is where `b` starts.
  */
  lemma FindAfter(a: string, b: string)
    requires Find(a, KEY_ID_PARAMETER).None? && KEY_ID_PARAMETER <= b
    ensures Find(a + b, KEY_ID_PARAMETER) == Some(|a|)
  {
    var t := KEY_ID_PARAMETER;
    var s := a + b;
    assert OccursAt(s, t, |a|);
    forall j: nat | j < |a|
      ensures !OccursAt(s, t, j)
    {
      if j + |t| <= |a| {
        assert s[j..j + |t|] == a[j..j + |t|];
        assert !OccursAt(a, t, j);
      } else if j + |t| <= |s| {
        // An occurrence straddling the end of `a` would end on a character
        // of `b`'s own `key_ID=` before its `=`; the only `=` of `key_ID=`
        // is its last character, so there is none.
        var k := |a| - j;
        assert s[j + |t| - 1] == t[|t| - k - 1] != '=';
        assert s[j..j + |t|][|t| - 1] != t[|t| - 1];
      }
    }
    FindFromFirst(s, t, 0, |a|);
  }

  /** The first position at or after `from` is `p` when `t` occurs at `p` and nowhere between. */
  lemma {:induction false} FindFromFirst(s: string, t: string, from: nat, p: nat)
    requires from <= p && OccursAt(s, t, p)
    requires forall j: nat :: from <= j < p ==> !OccursAt(s, t, j)
    ensures FindFrom(s, t, from) == Some(p)
    decreases p - from
  {
    if from < p {
      FindFromFirst(s, t, from + 1, p);
    }
  }

  /** How a Daisyway peer's ETSI client reads a reply: only a key container is JSON it understands. */
  function AsHttpResult(reply: Reply): HttpResult
  {
    Responded(reply.status, if reply.body.Keys? then Json(reply.body.container) else NotKeys)
  }

  /**
    A key handed out by the simulator reaches a Daisyway peer as the id and
    the material of that id.
  */
  lemma KeyReplyReadByPeer(c: Codecs, id: Uuid)
    requires Lawful(c)
    ensures KeyFromHttp(c, AsHttpResult(KeyReply(c, id))) == Ok(Etsi014Key(id, KeyMaterial(id)))
  {
    KeyFromEncodedKey(c, id, KeyMaterial(id));
  }

  /**
    Daisyway's `enc_keys` request is answered with the key of the counter's
    id and moves the counter by one, provided the remote SAE id does not
    itself contain `dec_keys` (the simulator would then take the request
    for a `dec_keys` one).
  */
  lemma EncKeysRequestIssues(c: Codecs, url: string, saeId: string, counter: nat)
    requires counter < COUNTER_MODULUS
    requires !Contains(EncKeysUri(url, saeId).path, DEC_KEYS)
    ensures var enc := EncKeysUri(url, saeId);
      Route(c, enc.path, Some(enc.query), counter) == (KeyReply(c, IdOf(counter)), (counter + 1) % COUNTER_MODULUS)
  {
    var enc := EncKeysUri(url, saeId);
    assert enc.path == (KEYS_PREFIX + saeId + "/") + ENC_KEYS;
    ContainsSuffix(KEYS_PREFIX + saeId + "/", ENC_KEYS);
    assert KEYS_PREFIX <= enc.path;
  }

  /** The shape of Daisyway's `dec_keys` request as the simulator sees it. */
  lemma DecKeysUriShape(url: string, saeId: string, id: Uuid)
    ensures var dec := DecKeysUri(url, saeId, id);
      && KEYS_PREFIX <= dec.path && Contains(dec.path, DEC_KEYS)
      && dec.query == KEY_ID_PARAMETER + Text(id)
  {
    var dec := DecKeysUri(url, saeId, id);
    assert dec.path == (KEYS_PREFIX + saeId + "/") + DEC_KEYS;
    ContainsSuffix(KEYS_PREFIX + saeId + "/", DEC_KEYS);
    assert KEYS_PREFIX <= dec.path;
  }

  /**
    Daisyway's `dec_keys` request for an id is answered with the key of that
    id, leaving the counter as it is, when the UUID parser reads the id's
    text back.
  */
  lemma DecKeysRequestReturns(c: Codecs, url: string, saeId: string, id: Uuid, counter: nat)
    requires c.uuidParse(Text(id)) == Some(id)
    requires counter < COUNTER_MODULUS
    ensures var dec := DecKeysUri(url, saeId, id);
      Route(c, dec.path, Some(dec.query), counter) == (KeyReply(c, id), counter)
  {
    DecKeysUriShape(url, saeId, id);
    var dec := DecKeysUri(url, saeId, id);
    DecKeysReturnsIssuedKey(c, dec.path, [], id, counter);
    assert [] + dec.query == dec.query;
  }

  /**
    The two Daisyway peers agree on the QKD key through the simulator: the
    server's `enc_keys` request is given the counter's id and that id's
    material, and the client's `dec_keys` request for that id, made at any
    later counter value, reads the same key.
  */
  lemma PeersShareKeyThroughSimulator(c: Codecs, url: string, serverSae: string, clientSae: string,
                                      counter: nat, later: nat)
    requires Lawful(c)
    requires counter < COUNTER_MODULUS && later < COUNTER_MODULUS
    requires !Contains(EncKeysUri(url, serverSae).path, DEC_KEYS)
    ensures var id := IdOf(counter);
      var enc := EncKeysUri(url, serverSae);
      var dec := DecKeysUri(url, clientSae, id);
      && KeyFromHttp(c, AsHttpResult(Route(c, enc.path, Some(enc.query), counter).0)) == Ok(Etsi014Key(id, KeyMaterial(id)))
      && KeyFromHttp(c, AsHttpResult(Route(c, dec.path, Some(dec.query), later).0)) == Ok(Etsi014Key(id, KeyMaterial(id)))
  {
    EncKeysRequestIssues(c, url, serverSae, counter);
    assert c.uuidParse(Text(IdOf(counter))) == Some(IdOf(counter));
    DecKeysRequestReturns(c, url, clientSae, IdOf(counter), later);
    KeyReplyReadByPeer(c, IdOf(counter));
  }

  /** The counter after `n` further `enc_keys` requests. */
  function CounterAfter(start: nat, n: nat): (c: nat)
    ensures c < COUNTER_MODULUS
  {
    (start + n) % COUNTER_MODULUS
  }

  /**
    Fewer than 2^64 `enc_keys` requests in a row issue pairwise distinct
    ids, in spite of the wrap-around of the counter.
  */
  lemma IssuedIdsDistinct(start: nat, i: nat, j: nat)
    requires i < j < COUNTER_MODULUS
    ensures IdOf(CounterAfter(start, i)) != IdOf(CounterAfter(start, j))
  {
    WrapDistinct(start + i, j - i);
    IdOfInjective(CounterAfter(start, i), CounterAfter(start, j));
  }

  lemma IdOfInjective(m: nat, n: nat)
    requires m < COUNTER_MODULUS && n < COUNTER_MODULUS && m != n
    ensures IdOf(m) != IdOf(n)
  {
    CounterFitsUuid();
    if IdOf(m) == IdOf(n) {
      FromU128Injective(m, n);
    }
  }

  /** Adding less than a full turn to a counter value changes it. */
  lemma WrapDistinct(x: nat, d: nat)
    requires 0 < d < COUNTER_MODULUS
    ensures x % COUNTER_MODULUS != (x + d) % COUNTER_MODULUS
  {
    var q, r := x / COUNTER_MODULUS, x % COUNTER_MODULUS;
    assert x == q * COUNTER_MODULUS + r;
    if r + d < COUNTER_MODULUS {
      assert (x + d) % COUNTER_MODULUS == r + d;
    } else {
      assert x + d == (q + 1) * COUNTER_MODULUS + (r + d - COUNTER_MODULUS);
      assert (x + d) % COUNTER_MODULUS == r + d - COUNTER_MODULUS;
    }
  }

  /** `Args` as far as start-up looks at them. */
  datatype Args = Args(addr: string, certPath: Option<string>, keyPath: Option<string>, caPath: Option<string>)

  /** How the simulator listens: plain HTTP, or TLS with a certificate, its key and an optional client CA. */
  datatype Listening = PlainHttp | Tls(certPath: string, keyPath: string, caPath: Option<string>)

  /**
    The argument check of `main`: a certificate path without a key path, or
    a key path without a certificate path, stops start-up; with both the
    simulator serves TLS, with neither plain HTTP.
  */
  function Startup(args: Args): (r: Result<Listening, Error>)
    ensures r.Err? <==> args.certPath.Some? != args.keyPath.Some?
    ensures r.Err? ==> r.error == Config(IncompleteTlsArguments)
    ensures r.Ok? ==> (r.value.Tls? <==> args.certPath.Some?)
    ensures r.Ok? && r.value.Tls? ==> r.value == Tls(args.certPath.value, args.keyPath.value, args.caPath)
  {
    if args.certPath.Some? != args.keyPath.Some? then Err(Config(IncompleteTlsArguments))
    else if args.certPath.Some? then Ok(Tls(args.certPath.value, args.keyPath.value, args.caPath))
    else Ok(PlainHttp)
  }

  /** The simulator's shared state: the `AtomicU64` counter, starting at 1. */
  class KeySimulator {
    const codecs: Codecs
    var counter: nat

    ghost predicate Valid()
      reads this
    {
      counter < COUNTER_MODULUS
    }

    constructor (codecs: Codecs)
      ensures Valid() && counter == 1 && this.codecs == codecs
    {
      this.codecs := codecs;
      counter := 1;
    }

    /** `counter.fetch_add(1)`: the value before the increment; the counter wraps around at 2^64. */
    method FetchAdd() returns (count: nat)
      requires Valid()
      modifies this
      ensures Valid()
      ensures count == old(counter) && counter == CounterAfter(old(counter), 1)
    {
      count := counter;
      counter := (counter + 1) % COUNTER_MODULUS;
    }

    /** `handle_keys`: chooses the id, then fills the 32-byte key input with the id's bytes twice. */
    method HandleKeys(path: string, query: Option<string>) returns (reply: Reply)
      requires Valid() && KEYS_PREFIX <= path
      modifies this
      ensures Valid()
      ensures (reply, counter) == Route(codecs, path, query, old(counter))
    {
      if !Contains(path, DEC_KEYS) && !Contains(path, ENC_KEYS) {
        return BadRequest("Only one of /dec_keys or /enc_keys is allowed");
      }
      var keyId: Uuid;
      match ChooseKeyId(codecs, path, query) {
        case Refuse(r) =>
          return r;
        case Named(id) =>
          keyId := id;
        case Issue =>
          var count := FetchAdd();
          keyId := IdOf(count);
      }
      var keyInput := new Byte[KEY_LENGTH](_ => 0);
      forall i | 0 <= i < UUID_LENGTH {
        keyInput[i] := keyId[i];
      }
      forall i | UUID_LENGTH <= i < KEY_LENGTH {
        keyInput[i] := keyId[i - UUID_LENGTH];
      }
      assert keyInput[..] == KeyMaterial(keyId);
      var encodedKey := codecs.base64Encode(keyInput[..]);
      reply := Reply(200, Keys(ResponseKeys([ResponseKey(keyId, encodedKey)])));
    }

    /** `handle_request`: only paths under `/api/v1/keys/` reach `handle_keys`; any other is not found. */
    method HandleRequest(path: string, query: Option<string>) returns (reply: Reply)
      requires Valid()
      modifies this
      ensures Valid()
      ensures (reply, counter) == Route(codecs, path, query, old(counter))
    {
      if KEYS_PREFIX <= path {
        reply := HandleKeys(path, query);
      } else {
        reply := Reply(404, NoBody);
      }
    }
  }
}
