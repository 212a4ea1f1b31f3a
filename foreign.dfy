/**
  Foreign libraries the core calls but does not implement. They are passed to
  the model as function values: SHAKE256 behind `HashDomain::mix`, Base64
  (`base64ct`, RFC 4648 section 4, padded) and `Uuid::parse_str`. `Lawful`
  collects the few facts about them that the lemmas rely on.
*/
module Foreign {
  import opened Bytes
  import opened Wrappers
  import opened Uuids

  /** `HashDomain::mix`: a 32-byte hash-domain key and data give a new key. */
  type MixFn = (Key, seq<Byte>) -> Key

  datatype Codecs = Codecs(
    base64Encode: seq<Byte> -> seq<Byte>,
    base64Decode: seq<Byte> -> Option<seq<Byte>>,
    uuidParse: string -> Option<Uuid>)

  /** `Base64::encoded_len` for padded Base64: four characters per started group of three bytes. */
  function EncodedLen(n: nat): nat
  {
    (n + 2) / 3 * 4
  }

  /**
    What the model assumes of the libraries: Base64 decoding inverts encoding,
    encoding has the padded length and writes only alphabet characters and
    `'='` (never a newline, byte 10), and parsing a UUID's hyphenated text gives
    the UUID back.
  */
  ghost predicate Lawful(c: Codecs)
  {
    && (forall b :: c.base64Decode(c.base64Encode(b)) == Some(b))
    && (forall b :: |c.base64Encode(b)| == EncodedLen(|b|))
    && (forall b :: 10 !in c.base64Encode(b))
    && (forall u :: c.uuidParse(Text(u)) == Some(u))
  }

  /** A 32-byte key encodes to 44 Base64 characters. */
  lemma EncodedKeyLength()
    ensures EncodedLen(KEY_LENGTH) == 44
  {
  }

  /**
    The encoded length of `n` bytes is 32 exactly for 22, 23 and 24 bytes: the
    inputs on which the `assert!` of the key conversion fires.
  */
  lemma EncodedLenIs32(n: nat)
    ensures EncodedLen(n) == 32 <==> 22 <= n <= 24
  {
    var q := (n + 2) / 3;
    assert n + 2 == 3 * q + (n + 2) % 3;
  }
}
