/**
  The byte stream between the two Daisyway peers, as the protocol halves use
  it: `read_exact` into a fixed buffer and `write_all`. `inbound` holds what
  the peer has sent and this side has not read yet (a finite prefix of the
  connection: reading past it hits the end of the stream), `outbound` what
  this side has written, and `writable` whether the peer still accepts data.
*/
module Streams {
  import opened Bytes
  import opened Wrappers
  import opened Errors

  datatype StreamState = StreamState(inbound: seq<Byte>, outbound: seq<Byte>, writable: bool)

  /** `read_exact` of `n` bytes: the bytes and the rest, or end of stream with everything consumed. */
  function ReadExactSpec(st: StreamState, n: nat): (r: (Result<seq<Byte>, Error>, StreamState))
    ensures r.0.Ok? <==> n <= |st.inbound|
    ensures r.0.Ok? ==> |r.0.value| == n && st.inbound == r.0.value + r.1.inbound
    ensures r.0.Err? ==> r.0.error == Io(UnexpectedEof) && r.1.inbound == []
    ensures r.1.outbound == st.outbound && r.1.writable == st.writable
  {
    if n <= |st.inbound| then (Ok(st.inbound[..n]), st.(inbound := st.inbound[n..]))
    else (Err(Io(UnexpectedEof)), st.(inbound := []))
  }

  /** `write_all`: everything is written, or nothing when the peer has gone. */
  function WriteAllSpec(st: StreamState, data: seq<Byte>): (r: (Outcome<Error>, StreamState))
    ensures r.0.Pass? <==> st.writable
    ensures r.0.Fail? ==> r.0.error == Io(BrokenPipe)
    ensures r.1.outbound == if st.writable then st.outbound + data else st.outbound
    ensures r.1.inbound == st.inbound && r.1.writable == st.writable
  {
    if st.writable then (Pass, st.(outbound := st.outbound + data))
    else (Fail(Io(BrokenPipe)), st)
  }

  class Stream {
    var inbound: seq<Byte>
    var outbound: seq<Byte>
    var writable: bool

    constructor (inbound: seq<Byte>, writable: bool)
      ensures State() == StreamState(inbound, [], writable)
    {
      this.inbound := inbound;
      outbound := [];
      this.writable := writable;
    }

    function State(): StreamState
      reads this
    {
      StreamState(inbound, outbound, writable)
    }

    /** `read_exact(buf)`: fills `buf` byte by byte from the stream. */
    method ReadExact(buf: array<Byte>) returns (o: Outcome<Error>)
      modifies this, buf
      ensures var (r, st) := ReadExactSpec(old(State()), buf.Length);
        && State() == st
        && (o.Pass? <==> r.Ok?)
        && (r.Ok? ==> buf[..] == r.value)
        && (r.Err? ==> o == Fail(r.error))
    {
      if buf.Length > |inbound| {
        inbound := [];
        return Fail(Io(UnexpectedEof));
      }
      var i := 0;
      while i < buf.Length
        invariant 0 <= i <= buf.Length <= |old(inbound)|
        invariant inbound == old(inbound)[i..]
        invariant buf[..i] == old(inbound)[..i]
        invariant outbound == old(outbound) && writable == old(writable)
      {
        buf[i] := inbound[0];
        inbound := inbound[1..];
        i := i + 1;
      }
      o := Pass;
    }

    /** `write_all(data)`. */
    method WriteAll(data: seq<Byte>) returns (o: Outcome<Error>)
      modifies this
      ensures (o, State()) == WriteAllSpec(old(State()), data)
    {
      if writable {
        outbound := outbound + data;
        o := Pass;
      } else {
        o := Fail(Io(BrokenPipe));
      }
    }
  }
}
