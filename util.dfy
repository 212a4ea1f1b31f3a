/**
  Helpers for reading the PSK file: `read_to_end_up_to` (fill a buffer from
  a reader until it is full or the reader reaches its end), `base64_to_key`,
  and `load_base64_key_file`, which strips one trailing newline before
  decoding.
*/
module Util {
  import opened Bytes
  import opened Wrappers
  import opened Errors
  import opened Foreign
  import opened Etsi014

  /**
    What the reader answers to the next `read`: some bytes (none means end
    of file), or an error. A `read` into a smaller buffer takes what fits
    and leaves the rest for the next call.
  */
  datatype ReadAnswer = Chunk(data: seq<Byte>) | ReadError(kind: IoErrorKind)

  /** One `read` into a buffer with `room` free bytes: the bytes delivered, or the error, and the answers left. */
  function ReadStep(script: seq<ReadAnswer>, room: nat): (r: (Result<seq<Byte>, IoErrorKind>, seq<ReadAnswer>))
    requires room > 0
    ensures r.0.Ok? ==> |r.0.value| <= room
    ensures r.0.Err? ==> |r.1| < |script|
  {
    if script == [] then (Ok([]), [])
    else match script[0]
      case ReadError(k) => (Err(k), script[1..])
      case Chunk(d) =>
        if |d| <= room then (Ok(d), script[1..])
        else (Ok(d[..room]), [Chunk(d[room..])] + script[1..])
  }

  /** `bytes` read before a result: prepended to what was read next, an error passes through. */
  function Prefixed(bytes: seq<Byte>, r: (Result<seq<Byte>, IoErrorKind>, seq<ReadAnswer>)): (Result<seq<Byte>, IoErrorKind>, seq<ReadAnswer>)
  {
    if r.0.Ok? then (Ok(bytes + r.0.value), r.1) else r
  }

  /** Nothing read before changes nothing, and two reads before are their concatenation. */
  lemma PrefixedConcat(a: seq<Byte>, b: seq<Byte>, r: (Result<seq<Byte>, IoErrorKind>, seq<ReadAnswer>))
    ensures Prefixed([], r) == r
    ensures Prefixed(a, Prefixed(b, r)) == Prefixed(a + b, r)
  {
    if r.0.Ok? {
      assert [] + r.0.value == r.0.value;
      assert a + (b + r.0.value) == (a + b) + r.0.value;
    }
  }

  /**
    `read_to_end_up_to` into a buffer of `cap` bytes, as a function: the
    bytes read and the answers left. An interrupted read is retried; any
    other error ends it; it stops at the end of file or when the buffer is
    full, and never reads more than `cap` bytes.
  */
  function ReadUpTo(script: seq<ReadAnswer>, cap: nat): (r: (Result<seq<Byte>, IoErrorKind>, seq<ReadAnswer>))
    ensures r.0.Ok? ==> |r.0.value| <= cap
    ensures r.0.Err? ==> r.0.error != Interrupted
    decreases cap, |script|
  {
    if cap == 0 then (Ok([]), script)
    else
      var (one, rest) := ReadStep(script, cap);
      if one.Err? then
        if one.error == Interrupted then ReadUpTo(rest, cap) else (Err(one.error), rest)
      else if one.value == [] then (Ok([]), rest)
      else Prefixed(one.value, ReadUpTo(rest, cap - |one.value|))
  }

  /** The bytes the reader has to give before its end of file or its first error other than an interruption. */
  function Available(script: seq<ReadAnswer>): seq<Byte>
  {
    if script == [] then []
    else match script[0]
      case ReadError(k) => if k == Interrupted then Available(script[1..]) else []
      case Chunk(d) => if d == [] then [] else d + Available(script[1..])
  }

  /** How the reader's data ends: `None` at the end of file, or the first error other than an interruption. */
  function Stop(script: seq<ReadAnswer>): Option<IoErrorKind>
  {
    if script == [] then None
    else match script[0]
      case ReadError(k) => if k == Interrupted then Stop(script[1..]) else Some(k)
      case Chunk(d) => if d == [] then None else Stop(script[1..])
  }

  /**
    `read_to_end_up_to` gives the first `cap` bytes of the reader's data, in
    order and however the reader splits them into chunks; if there are
    fewer, it gives all of them when the data ends with the end of file and
    the error that ended it otherwise.
  */
  lemma {:induction false} ReadUpToReadsAvailable(script: seq<ReadAnswer>, cap: nat)
    ensures ReadUpTo(script, cap).0 ==
      if |Available(script)| >= cap then Ok(Available(script)[..cap])
      else if Stop(script).Some? then Err(Stop(script).value)
      else Ok(Available(script))
    decreases cap, |script|
  {
    if cap > 0 && script != [] {
      match script[0]
      case ReadError(k) =>
        if k == Interrupted {
          ReadUpToReadsAvailable(script[1..], cap);
        }
      case Chunk(d) =>
        if d != [] {
          if |d| <= cap {
            ReadUpToReadsAvailable(script[1..], cap - |d|);
            assert Available(script) == d + Available(script[1..]);
            if |Available(script[1..])| >= cap - |d| {
              assert Available(script)[..cap] == d + Available(script[1..])[..cap - |d|];
            }
          } else {
            assert Available(script) == d + Available(script[1..]);
            assert Available(script)[..cap] == d[..cap];
            var rest := [Chunk(d[cap..])] + script[1..];
            assert ReadStep(script, cap) == (Ok(d[..cap]), rest);
            assert ReadUpTo(rest, 0).0 == Ok([]);
            assert d[..cap] + [] == d[..cap];
          }
        }
    }
  }

  /** A reader of the PSK file or any other byte source, answering each `read` from a script. */
  class Reader {
    var script: seq<ReadAnswer>

    constructor (script: seq<ReadAnswer>)
      ensures this.script == script
    {
      this.script := script;
    }

    /** `read(&mut buf[start..])`: the count delivered into `buf` from `start` on, or the error. */
    method Read(buf: array<Byte>, start: nat) returns (r: Result<nat, IoErrorKind>)
      requires start < buf.Length
      modifies this, buf
      ensures var (one, rest) := ReadStep(old(script), buf.Length - start);
        && script == rest
        && (r.Ok? <==> one.Ok?)
        && (r.Err? ==> r.error == one.error)
        && (r.Ok? ==> r.value == |one.value| && buf[start..start + r.value] == one.value)
        && buf[..start] == old(buf[..start])
    {
      var (one, rest) := ReadStep(script, buf.Length - start);
      script := rest;
      if one.Err? {
        return Err(one.error);
      }
      var data := one.value;
      forall i | 0 <= i < |data| {
        buf[start + i] := data[i];
      }
      r := Ok(|data|);
    }

    /**
      `read_to_end_up_to(buf)`: fills `buf` from the start, retrying
      interrupted reads, until it is full, the reader is at its end, or a
      read fails; the count is that of `ReadUpTo`, and `buf` starts with the
      bytes read.
    */
    method ReadToEndUpTo(buf: array<Byte>) returns (r: Result<nat, Error>)
      modifies this, buf
      ensures var (spec, rest) := ReadUpTo(old(script), buf.Length);
        && script == rest
        && (r.Ok? <==> spec.Ok?)
        && (r.Ok? ==> r.value == |spec.value| <= buf.Length && buf[..r.value] == spec.value)
        && (r.Err? ==> r.error == Io(spec.error))
    {
      var red := 0;
      PrefixedConcat([], [], ReadUpTo(script, buf.Length));
      assert buf[..0] == [];
      while red < buf.Length
        invariant 0 <= red <= buf.Length
        invariant ReadUpTo(old(script), buf.Length) == Prefixed(buf[..red], ReadUpTo(script, buf.Length - red))
        decreases buf.Length - red, |script|
      {
        ghost var before := script;
        ghost var bytes := buf[..red];
        var cnt := Read(buf, red);
        assert buf[..red] == bytes;
        match cnt {
          case Err(k) =>
            assert ReadUpTo(before, buf.Length - red) == if k == Interrupted then ReadUpTo(script, buf.Length - red) else (Err(k), script);
            if k != Interrupted {
              return Err(Io(k));
            }
          case Ok(v) =>
            if v == 0 {
              assert ReadUpTo(before, buf.Length - red) == (Ok([]), script);
              assert bytes + [] == bytes;
              return Ok(red);
            }
            ghost var chunk := buf[red..red + v];
            assert ReadUpTo(before, buf.Length - red) == Prefixed(chunk, ReadUpTo(script, buf.Length - red - v));
            PrefixedConcat(bytes, chunk, ReadUpTo(script, buf.Length - red - v));
            assert buf[..red + v] == bytes + chunk;
            red := red + v;
        }
      }
      assert buf[..red] == buf[..buf.Length];
      r := Ok(red);
    }
  }

  /**
    `base64_to_key`: the text is decoded into a zeroed 32-byte key, so a
    text that decodes to fewer bytes leaves the rest of the key zero; a text
    that does not decode, or decodes to more than 32 bytes, is an error.
  */
  function Base64ToKey(c: Codecs, encoded: seq<Byte>): (r: Result<Key, Error>)
    ensures r.Ok? <==> DecodeInto(c, encoded, KEY_LENGTH).Some?
    ensures r.Err? ==> r.error == Base64Invalid
    ensures r.Ok? ==> var d := c.base64Decode(encoded).value;
      r.value[..|d|] == d && r.value[|d|..] == Zeros(KEY_LENGTH - |d|)
  {
    match DecodeInto(c, encoded, KEY_LENGTH)
    case None => Err(Base64Invalid)
    case Some(d) => Ok(d + Zeros(KEY_LENGTH - |d|))
  }

  /** The Base64 text of a key decodes back to that key. */
  lemma Base64KeyRoundTrip(c: Codecs, k: Key)
    requires Lawful(c)
    ensures Base64ToKey(c, c.base64Encode(k)) == Ok(k)
  {
    assert c.base64Decode(c.base64Encode(k)) == Some(k);
    assert k + Zeros(0) == k;
  }

  const NEWLINE: Byte := 10

  /** The newline trim of `load_base64_key_file`: one trailing `'\n'` is dropped, if there is one. */
  function TrimTrailingNewline(b: seq<Byte>): (t: seq<Byte>)
  {
    if |b| > 0 && b[|b| - 1] == NEWLINE then b[..|b| - 1] else b
  }

  /** Exactly one newline is dropped, and text without a trailing newline is kept whole. */
  lemma TrimTrailingNewlineSpec(b: seq<Byte>)
    ensures TrimTrailingNewline(b + [NEWLINE]) == b
    ensures (|b| == 0 || b[|b| - 1] != NEWLINE) ==> TrimTrailingNewline(b) == b
    ensures TrimTrailingNewline(b) <= b && |b| - 1 <= |TrimTrailingNewline(b)|
  {
    assert (b + [NEWLINE])[..|b|] == b;
  }

  /**
    `load_base64_key_file` after the file was opened: at most
    `KEY_LENGTH_B64` bytes are read, one trailing newline is dropped, and the
    rest is decoded as the key.
  */
  function LoadBase64Key(c: Codecs, file: seq<ReadAnswer>): (r: Result<Key, Error>)
  {
    match ReadUpTo(file, KEY_LENGTH_B64).0
    case Err(k) => Err(Io(k))
    case Ok(text) => Base64ToKey(c, TrimTrailingNewline(text))
  }

  /**
    A key file holding the Base64 text of a key, with or without a final
    newline and however the reads split it, loads as that key.
  */
  lemma LoadBase64KeyRoundTrip(c: Codecs, k: Key, file: seq<ReadAnswer>, newline: bool)
    requires Lawful(c)
    requires Available(file) == c.base64Encode(k) + (if newline then [NEWLINE] else [])
    requires Stop(file).None?
    ensures LoadBase64Key(c, file) == Ok(k)
  {
    var text := c.base64Encode(k);
    assert |text| == EncodedLen(KEY_LENGTH);
    EncodedKeyLength();
    ReadUpToReadsAvailable(file, KEY_LENGTH_B64);
    TrimTrailingNewlineSpec(text);
    if !newline {
      assert text + [] == text;
      assert NEWLINE !in text;
      assert text[|text| - 1] in text;
    }
    Base64KeyRoundTrip(c, k);
  }

  /**
    `load_base64_key_file`: `None` for `file` stands for a file that could
    not be opened. The read fills a zeroed buffer of `KEY_LENGTH_B64` bytes.
  */
  method LoadBase64KeyFile(c: Codecs, file: Option<Reader>) returns (r: Result<Key, Error>)
    modifies if file.Some? then {file.value} else {}
    ensures file.None? ==> r == Err(Io(OtherIo))
    ensures file.Some? ==> r == LoadBase64Key(c, old(file.value.script))
  {
    if file.None? {
      return Err(Io(OtherIo));
    }
    var buf := new Byte[KEY_LENGTH_B64](_ => 0);
    var n := file.value.ReadToEndUpTo(buf);
    if n.Err? {
      return Err(n.error);
    }
    var text := buf[..n.value];
    r := Base64ToKey(c, TrimTrailingNewline(text));
  }
}
