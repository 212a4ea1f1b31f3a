/**
  The parts of the `uuid` crate the core relies on. A UUID is its 16 bytes in
  the crate's `as_bytes` order (big endian); `from_bytes` and `as_bytes` are
  therefore the identity. `Uuid::parse_str` is a foreign function (see Foreign).
*/
module Uuids {
  import opened Bytes

  type Uuid = UuidBytes

  /** `Uuid::nil()`. */
  const NIL: Uuid := Zeros(UUID_LENGTH)

  /**
    `Uuid::to_bytes_le`: the first three fields (4, 2 and 2 bytes) are
    byte-swapped, the last 8 bytes are kept.
  */
  function ToBytesLe(u: Uuid): (le: UuidBytes)
  {
    [u[3], u[2], u[1], u[0], u[5], u[4], u[7], u[6]] + u[8..]
  }

  /** Swapping twice gives the UUID back, so `to_bytes_le` loses nothing. */
  lemma ToBytesLeInvolution(u: Uuid)
    ensures ToBytesLe(ToBytesLe(u)) == u
  {
    var w := ToBytesLe(ToBytesLe(u));
    forall i | 0 <= i < UUID_LENGTH ensures w[i] == u[i] { }
  }

  /** Distinct UUIDs have distinct little-endian byte forms. */
  lemma ToBytesLeInjective(u: Uuid, v: Uuid)
    requires ToBytesLe(u) == ToBytesLe(v)
    ensures u == v
  {
    ToBytesLeInvolution(u);
    ToBytesLeInvolution(v);
  }

  function Pow256(n: nat): (p: nat)
    ensures p >= 1
  {
    if n == 0 then 1 else 256 * Pow256(n - 1)
  }

  /** The `len`-byte big-endian representation of `n`. */
  function BigEndian(n: nat, len: nat): (b: seq<Byte>)
    requires n < Pow256(len)
    ensures |b| == len
  {
    if len == 0 then []
    else BigEndian(n / 256, len - 1) + [(n % 256) as Byte]
  }

  /** The number a big-endian byte string denotes. */
  function BigEndianValue(b: seq<Byte>): (n: nat)
  {
    if b == [] then 0 else BigEndianValue(b[..|b| - 1]) * 256 + b[|b| - 1] as nat
  }

  lemma {:induction false} BigEndianRoundTrip(n: nat, len: nat)
    requires n < Pow256(len)
    ensures BigEndianValue(BigEndian(n, len)) == n
  {
    if len > 0 {
      var b := BigEndian(n, len);
      BigEndianRoundTrip(n / 256, len - 1);
      assert b[..|b| - 1] == BigEndian(n / 256, len - 1);
    }
  }

  /** `Uuid::from_u128`: the 16 big-endian bytes of `n`. */
  function FromU128(n: nat): (u: Uuid)
    requires n < Pow256(UUID_LENGTH)
  {
    BigEndian(n, UUID_LENGTH)
  }

  /** `from_u128` is injective: distinct counters give distinct UUIDs. */
  lemma FromU128Injective(m: nat, n: nat)
    requires m < Pow256(UUID_LENGTH) && n < Pow256(UUID_LENGTH)
    requires FromU128(m) == FromU128(n)
    ensures m == n
  {
    BigEndianRoundTrip(m, UUID_LENGTH);
    BigEndianRoundTrip(n, UUID_LENGTH);
  }

  function HexDigit(d: nat): (c: char)
    requires d < 16
  {
    if d < 10 then ('0' as int + d) as char else ('a' as int + d - 10) as char
  }

  function HexDigitValue(c: char): (d: nat)
    ensures d < 16
  {
    if '0' <= c <= '9' then (c as int - '0' as int) as nat
    else if 'a' <= c <= 'f' then (c as int - 'a' as int + 10) as nat
    else 0
  }

  /** Lower-case hexadecimal, two digits per byte, most significant first. */
  function Hex(b: seq<Byte>): (s: string)
    ensures |s| == 2 * |b|
  {
    if b == [] then [] else [HexDigit(b[0] as nat / 16), HexDigit(b[0] as nat % 16)] + Hex(b[1..])
  }

  function Unhex(s: string): (b: seq<Byte>)
    decreases |s|
  {
    if |s| < 2 then [] else [(HexDigitValue(s[0]) * 16 + HexDigitValue(s[1])) as Byte] + Unhex(s[2..])
  }

  lemma {:induction false} UnhexHex(b: seq<Byte>)
    ensures Unhex(Hex(b)) == b
  {
    if b != [] {
      var s := Hex(b);
      assert s[2..] == Hex(b[1..]);
      UnhexHex(b[1..]);
      assert HexDigitValue(s[0]) * 16 + HexDigitValue(s[1]) == b[0] as nat;
    }
  }

  /**
    The hyphenated lower-case form that `Uuid`'s `Display` produces
    (8-4-4-4-12 hexadecimal digits), as written into `dec_keys` URLs.
  */
  function Text(u: Uuid): (s: string)
    ensures |s| == 36
  {
    Hex(u[..4]) + "-" + Hex(u[4..6]) + "-" + Hex(u[6..8]) + "-" + Hex(u[8..10]) + "-" + Hex(u[10..])
  }

  /** Reads the hexadecimal digits of a hyphenated text back. */
  function FromText(s: string): (u: seq<Byte>)
    requires |s| == 36
  {
    Unhex(s[..8]) + Unhex(s[9..13]) + Unhex(s[14..18]) + Unhex(s[19..23]) + Unhex(s[24..])
  }

  lemma TextRoundTrip(u: Uuid)
    ensures FromText(Text(u)) == u
  {
    var s := Text(u);
    assert s[..8] == Hex(u[..4]);
    assert s[9..13] == Hex(u[4..6]);
    assert s[14..18] == Hex(u[6..8]);
    assert s[19..23] == Hex(u[8..10]);
    assert s[24..] == Hex(u[10..]);
    UnhexHex(u[..4]);
    UnhexHex(u[4..6]);
    UnhexHex(u[6..8]);
    UnhexHex(u[8..10]);
    UnhexHex(u[10..]);
    assert u == u[..4] + u[4..6] + u[6..8] + u[8..10] + u[10..];
  }

  /** Distinct UUIDs are written as distinct texts. */
  lemma TextInjective(u: Uuid, v: Uuid)
    requires Text(u) == Text(v)
    ensures u == v
  {
    TextRoundTrip(u);
    TextRoundTrip(v);
  }
}
