/**
  The events the TCP server's connection manager reacts to. Connection
  handlers report that they exited or that they negotiated an output key;
  the listener adds accepted connections. The accepted stream and the peer's
  address are not modelled (the address is only logged).
*/
module Events {
  import opened Bytes
  import opened Osk

  /** `ConnectionId` (`usize`): connections are numbered in accept order. */
  type ConnectionId = nat

  datatype ExitEvent = ExitEvent(connectionId: ConnectionId)

  datatype OskEvent = OskEvent(connectionId: ConnectionId, key: Key, reason: SetOskReason)

  /** What a connection handler sends to the manager. */
  datatype ConnectionHandlerEvent = Exit(exit: ExitEvent) | Osk(osk: OskEvent)

  /** Everything the manager's loop reacts to. */
  datatype StreamEvent = Accept | Exit(exit: ExitEvent) | Osk(osk: OskEvent)

  /** `From<ConnectionHandlerEvent> for StreamEvent`: the same event, never an accept. */
  function FromHandlerEvent(e: ConnectionHandlerEvent): (s: StreamEvent)
    ensures !s.Accept?
    ensures s.Exit? <==> e.Exit?
    ensures s.Exit? ==> s.exit == e.exit
    ensures s.Osk? ==> s.osk == e.osk
  {
    match e
    case Exit(exit) => StreamEvent.Exit(exit)
    case Osk(osk) => StreamEvent.Osk(osk)
  }

  /** The conversion loses nothing: different handler events stay different. */
  lemma FromHandlerEventInjective(a: ConnectionHandlerEvent, b: ConnectionHandlerEvent)
    requires FromHandlerEvent(a) == FromHandlerEvent(b)
    ensures a == b
  {
  }
}
