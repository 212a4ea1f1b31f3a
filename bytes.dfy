/**
  Byte strings and the fixed-size byte arrays of the protocol: 32-byte keys,
  nonces and WireGuard public keys, and 16-byte UUIDs.
*/
module Bytes {

  newtype Byte = b: int | 0 <= b < 256

  /** Length of every key, nonce and hash value (`KEY_LENGTH`). */
  const KEY_LENGTH: nat := 32

  /** Size of the buffer a Base64 key file is read into (`KEY_LENGTH * 4 / 3 + 4`). */
  const KEY_LENGTH_B64: nat := KEY_LENGTH * 4 / 3 + 4

  /** Length of a UUID in bytes. */
  const UUID_LENGTH: nat := 16

  /** `[u8; KEY_LENGTH]`: keys, nonces, hash values and WireGuard public keys. */
  type Key = s: seq<Byte> | |s| == KEY_LENGTH witness seq(KEY_LENGTH, _ => 0)

  /** `[u8; 16]`: the bytes of a UUID. */
  type UuidBytes = s: seq<Byte> | |s| == UUID_LENGTH witness seq(UUID_LENGTH, _ => 0)

  function Zeros(n: nat): (z: seq<Byte>)
    ensures |z| == n
    ensures forall i :: 0 <= i < n ==> z[i] == 0
  {
    seq(n, _ => 0)
  }

  /** The all-zero key (`Key::new_zeroed()`). */
  function ZeroKey(): (k: Key)
    ensures forall i :: 0 <= i < KEY_LENGTH ==> k[i] == 0
  {
    Zeros(KEY_LENGTH)
  }

  /**
    `str::as_bytes` for ASCII text (labels and Base64 text): one byte per
    character. Only characters below 128 are encoded as UTF-8 does; any other
    character is mapped to one byte, not to its UTF-8 encoding.
  */
  function Ascii(s: string): (b: seq<Byte>)
    ensures |b| == |s|
    ensures forall i :: 0 <= i < |s| ==> b[i] as int == s[i] as int % 256
  {
    seq(|s|, i requires 0 <= i < |s| => (s[i] as int % 256) as Byte)
  }

  /** Rust's ordering of byte arrays: lexicographic, a proper prefix first. */
  predicate LexLe(a: seq<Byte>, b: seq<Byte>)
    decreases |a|
  {
    if a == [] then true
    else if b == [] then false
    else if a[0] != b[0] then a[0] < b[0]
    else LexLe(a[1..], b[1..])
  }

  /** Any two byte strings are comparable. */
  lemma {:induction false} LexLeTotal(a: seq<Byte>, b: seq<Byte>)
    ensures LexLe(a, b) || LexLe(b, a)
    decreases |a|
  {
    if a != [] && b != [] && a[0] == b[0] {
      LexLeTotal(a[1..], b[1..]);
    }
  }

  /** Two byte strings each ordered before the other are equal. */
  lemma {:induction false} LexLeAntisymmetric(a: seq<Byte>, b: seq<Byte>)
    requires LexLe(a, b) && LexLe(b, a)
    ensures a == b
    decreases |a|
  {
    if a != [] && b != [] {
      LexLeAntisymmetric(a[1..], b[1..]);
      assert a == [a[0]] + a[1..] && b == [b[0]] + b[1..];
    }
  }
}
