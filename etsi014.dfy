/**
  The ETSI GS QKD 014 client: the key container and its conversion into a
  key, the two request URLs ("Get key", section 5.2, and "Get key with key
  IDs", section 5.3), the HTTP status check, and the certificate verifier that
  ignores a server-name mismatch. TLS set-up and the HTTP transfer itself are
  not modelled: the device's answer to each request is an input.
*/
module Etsi014 {
  import opened Bytes
  import opened Wrappers
  import opened Errors
  import opened Uuids
  import opened Foreign

  /** A key obtained from the QKD device together with its identifier. */
  datatype Etsi014Key = Etsi014Key(id: Uuid, key: Key)

  /** `Etsi014Key::empty()`. */
  function Empty(): (k: Etsi014Key)
    ensures forall i :: 0 <= i < UUID_LENGTH ==> k.id[i] == 0
    ensures forall i :: 0 <= i < KEY_LENGTH ==> k.key[i] == 0
  {
    Etsi014Key(NIL, ZeroKey())
  }

  /** One element of the JSON key container: `key_ID` and the Base64 text of the key. */
  datatype ResponseKey = ResponseKey(id: Uuid, key: seq<Byte>)

  /** The JSON key container `{"keys": [...]}` (section 6.3 of ETSI GS QKD 014). */
  datatype ResponseKeys = ResponseKeys(keys: seq<ResponseKey>)

  /**
    `Base64::decode` into a zeroed buffer of `capacity` bytes: the decoded
    bytes, or `None` if the text does not decode or needs a larger buffer.
  */
  function DecodeInto(c: Codecs, text: seq<Byte>, capacity: nat): (r: Option<seq<Byte>>)
    ensures r.Some? <==> c.base64Decode(text).Some? && |c.base64Decode(text).value| <= capacity
    ensures r.Some? ==> r.value == c.base64Decode(text).value
  {
    match c.base64Decode(text)
    case None => None
    case Some(d) => if |d| <= capacity then Some(d) else None
  }

  /**
    `TryFrom<ResponseKey> for Etsi014Key`. The `assert!` on the encoded length
    of the key text and the `unwrap` of the decoding both panic; a decoded key
    shorter than 32 bytes is an error.
  */
  function KeyFromResponseKey(c: Codecs, rk: ResponseKey): (r: Result<Etsi014Key, Error>)
    ensures r == Err(Panic) <==>
              EncodedLen(|rk.key|) == KEY_LENGTH || DecodeInto(c, rk.key, KEY_LENGTH).None?
    ensures r.Ok? <==>
              && EncodedLen(|rk.key|) != KEY_LENGTH
              && DecodeInto(c, rk.key, KEY_LENGTH).Some?
              && |DecodeInto(c, rk.key, KEY_LENGTH).value| == KEY_LENGTH
    ensures r.Ok? ==> r.value.id == rk.id && c.base64Decode(rk.key) == Some(r.value.key)
    ensures r.Err? && r.error != Panic ==>
              r.error == WrongKeyLength(|c.base64Decode(rk.key).value|) && r.error.length < KEY_LENGTH
  {
    if EncodedLen(|rk.key|) == KEY_LENGTH then Err(Panic)
    else match DecodeInto(c, rk.key, KEY_LENGTH)
      case None => Err(Panic)
      case Some(d) => if |d| == KEY_LENGTH then Ok(Etsi014Key(rk.id, d)) else Err(WrongKeyLength(|d|))
  }

  /** A container element holding the Base64 text of a 32-byte key converts back to that key. */
  lemma KeyFromEncodedKey(c: Codecs, id: Uuid, k: Key)
    requires Lawful(c)
    ensures KeyFromResponseKey(c, ResponseKey(id, c.base64Encode(k))) == Ok(Etsi014Key(id, k))
  {
    assert |c.base64Encode(k)| == EncodedLen(KEY_LENGTH);
    EncodedKeyLength();
    assert c.base64Decode(c.base64Encode(k)) == Some(k);
  }

  /** `TryFrom<ResponseKeys> for Etsi014Key`: exactly one key, which is then converted. */
  function KeyFromResponseKeys(c: Codecs, rks: ResponseKeys): (r: Result<Etsi014Key, Error>)
    ensures |rks.keys| != 1 ==> r == Err(WrongKeyCount(|rks.keys|))
    ensures |rks.keys| == 1 ==> r == KeyFromResponseKey(c, rks.keys[0])
    ensures r.Ok? ==> |rks.keys| == 1 && r.value.id == rks.keys[0].id
  {
    if |rks.keys| != 1 then Err(WrongKeyCount(|rks.keys|))
    else KeyFromResponseKey(c, rks.keys[0])
  }

  /** The body of an HTTP answer: a key container, or text that is not one. */
  datatype ResponseBody = Json(container: ResponseKeys) | NotKeys

  datatype HttpResult = Responded(status: nat, body: ResponseBody) | TransportFailed

  predicate IsSuccess(status: nat)
  {
    200 <= status <= 299
  }

  /**
    `fetch_key_internal` after the request is sent: a transport failure or a
    non-success status is an error, and only a successful answer's body is
    read as a key container.
  */
  function KeyFromHttp(c: Codecs, res: HttpResult): (r: Result<Etsi014Key, Error>)
    ensures res.TransportFailed? ==> r == Err(Transport)
    ensures res.Responded? && !IsSuccess(res.status) ==> r == Err(BadStatus(res.status))
    ensures res.Responded? && IsSuccess(res.status) && res.body.NotKeys? ==> r == Err(MalformedBody)
    ensures r.Ok? <==>
              && res.Responded? && IsSuccess(res.status) && res.body.Json?
              && KeyFromResponseKeys(c, res.body.container).Ok?
    ensures r.Ok? ==> r == KeyFromResponseKeys(c, res.body.container)
  {
    match res
    case TransportFailed => Err(Transport)
    case Responded(status, body) =>
      if !IsSuccess(status) then Err(BadStatus(status))
      else match body
        case NotKeys => Err(MalformedBody)
        case Json(container) => KeyFromResponseKeys(c, container)
  }

  /** The body of a non-success answer has no influence on the result. */
  lemma StatusDecidesBeforeBody(c: Codecs, status: nat, b1: ResponseBody, b2: ResponseBody)
    requires !IsSuccess(status)
    ensures KeyFromHttp(c, Responded(status, b1)) == KeyFromHttp(c, Responded(status, b2))
    ensures KeyFromHttp(c, Responded(status, b1)).Err?
  {
  }

  /** A request target, split where the HTTP layer splits it. */
  datatype Uri = Uri(base: string, path: string, query: string)

  function Render(u: Uri): string
  {
    u.base + u.path + "?" + u.query
  }

  const KEYS_PREFIX: string := "/api/v1/keys/"

  /** The target of `fetch_any_key`: one 256-bit key ("Get key", section 5.2). */
  function EncKeysUri(url: string, saeId: string): (u: Uri)
  {
    Uri(url, KEYS_PREFIX + saeId + "/enc_keys", "number=1&key_length=256")
  }

  /** The `enc_keys` request asks for one key of 256 bits from the remote SAE's key store. */
  lemma EncKeysUriRendered(url: string, saeId: string)
    ensures Render(EncKeysUri(url, saeId)) == url + "/api/v1/keys/" + saeId + "/enc_keys?number=1&key_length=256"
  {
  }

  /** The target of `fetch_specific_key(id)` ("Get key with key IDs", section 5.3). */
  function DecKeysUri(url: string, saeId: string, id: Uuid): (u: Uri)
  {
    Uri(url, KEYS_PREFIX + saeId + "/dec_keys", "key_ID=" + Text(id))
  }

  /** The `dec_keys` request names the key by the hyphenated text of its id. */
  lemma DecKeysUriRendered(url: string, saeId: string, id: Uuid)
    ensures Render(DecKeysUri(url, saeId, id)) == url + "/api/v1/keys/" + saeId + "/dec_keys?key_ID=" + Text(id)
  {
  }

  /** Distinct key ids give distinct `dec_keys` targets. */
  lemma DecKeysUriInjective(url: string, saeId: string, a: Uuid, b: Uuid)
    requires DecKeysUri(url, saeId, a) == DecKeysUri(url, saeId, b)
    ensures a == b
  {
    var qa, qb := DecKeysUri(url, saeId, a).query, DecKeysUri(url, saeId, b).query;
    assert qa[7..] == Text(a) && qb[7..] == Text(b);
    TextInjective(a, b);
  }

  datatype CertificateError =
    | NotValidForName
    | NotValidForNameContext(expected: string, presented: string)
    | OtherCertificateError(name: string)

  datatype TlsError = InvalidCertificate(cert: CertificateError) | OtherTlsError(name: string)

  /** `ServerCertVerified::assertion()`. */
  datatype ServerCertVerified = Verified

  predicate IsNameMismatch(inner: Result<ServerCertVerified, TlsError>)
  {
    && inner.Err? && inner.error.InvalidCertificate?
    && (inner.error.cert.NotValidForName? || inner.error.cert.NotValidForNameContext?)
  }

  /**
    `NoServerNameVerification::verify_server_cert`, given the verdict of the
    inner WebPKI verifier: a certificate that fails only on its name is
    accepted, every other verdict is passed on unchanged.
  */
  function VerifyServerCertIgnoringName(inner: Result<ServerCertVerified, TlsError>): (r: Result<ServerCertVerified, TlsError>)
    ensures r.Ok? <==> inner.Ok? || IsNameMismatch(inner)
    ensures !IsNameMismatch(inner) ==> r == inner
  {
    match inner
    case Ok(v) => Ok(v)
    case Err(InvalidCertificate(NotValidForName)) => Ok(Verified)
    case Err(InvalidCertificate(NotValidForNameContext(_, _))) => Ok(Verified)
    case Err(e) => Err(e)
  }

  /** The answer the next request receives; none left means the request fails. */
  function AnswerOf(device: seq<HttpResult>): HttpResult
  {
    if device == [] then TransportFailed else device[0]
  }

  function AfterAnswer(device: seq<HttpResult>): seq<HttpResult>
  {
    if device == [] then [] else device[1..]
  }

  /**
    `Etsi014Connection`: the base URL, the remote SAE id and the HTTP client.
    The HTTP exchange is modelled by `device`, the answers the QKD device
    gives to the next requests in order, and `requested`, the targets asked
    for so far.
  */
  class Etsi014Connection {
    const url: string
    const remoteSaeId: string
    const codecs: Codecs
    var device: seq<HttpResult>
    var requested: seq<Uri>

    constructor (url: string, remoteSaeId: string, codecs: Codecs, device: seq<HttpResult>)
      ensures this.url == url && this.remoteSaeId == remoteSaeId && this.codecs == codecs
      ensures this.device == device && requested == []
    {
      this.url := url;
      this.remoteSaeId := remoteSaeId;
      this.codecs := codecs;
      this.device := device;
      requested := [];
    }

    function NextAnswer(): HttpResult
      reads this
    {
      AnswerOf(device)
    }

    function RemainingAfterNext(): seq<HttpResult>
      reads this
    {
      AfterAnswer(device)
    }

    method FetchKeyInternal(uri: Uri) returns (r: Result<Etsi014Key, Error>)
      modifies this
      ensures requested == old(requested) + [uri]
      ensures device == old(RemainingAfterNext())
      ensures r == KeyFromHttp(codecs, old(NextAnswer()))
    {
      var answer := NextAnswer();
      device := RemainingAfterNext();
      requested := requested + [uri];
      r := KeyFromHttp(codecs, answer);
    }

    /** `fetch_any_key`: asks for one new 256-bit key. */
    method FetchAnyKey() returns (r: Result<Etsi014Key, Error>)
      modifies this
      ensures requested == old(requested) + [EncKeysUri(url, remoteSaeId)]
      ensures device == old(RemainingAfterNext())
      ensures r == KeyFromHttp(codecs, old(NextAnswer()))
    {
      r := FetchKeyInternal(EncKeysUri(url, remoteSaeId));
    }

    /** `fetch_specific_key(id)`: asks for the key the peer's device issued under `id`. */
    method FetchSpecificKey(id: Uuid) returns (r: Result<Etsi014Key, Error>)
      modifies this
      ensures requested == old(requested) + [DecKeysUri(url, remoteSaeId, id)]
      ensures device == old(RemainingAfterNext())
      ensures r == KeyFromHttp(codecs, old(NextAnswer()))
    {
      r := FetchKeyInternal(DecKeysUri(url, remoteSaeId, id));
    }
  }
}
