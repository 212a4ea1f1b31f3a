/**
  `DaisywayTcpParticipant`: a Daisyway peer is either the TCP client, which
  connects to an endpoint and answers rekey requests, or the TCP server,
  which listens on an address and starts a rekey every interval. The
  participant is generic in the ETSI client `E` and the output-key handler
  `O` it passes on; the two TCP peers are values holding what `new` was
  given, and their event loops are parameters of `EventLoop`.
*/
module TcpParticipant {
  import opened Crypto

  /** The `[peer]` table's role: `endpoint` for a client, `listen` for a server. */
  datatype ParticipantConfig = ClientConfig(endpoint: string) | ServerConfig(listen: string)

  /** `DaisywayTcpClient::new`'s fields. */
  datatype TcpClient<E, O> = TcpClient(protocolParams: ProtocolParameters, endpoint: string, etsiClient: E, oskHandler: O)

  /** `DaisywayTcpServer::new`'s fields. */
  datatype TcpServer<E, O> = TcpServer(protocolParams: ProtocolParameters, listen: string, etsiClient: E, oskHandler: O, rekeyInterval: nat)

  datatype Participant<E, O> = Client(client: TcpClient<E, O>) | Server(server: TcpServer<E, O>)

  /** The role and address a participant was built for. */
  function ConfigOf<E, O>(p: Participant<E, O>): ParticipantConfig
  {
    match p
    case Client(c) => ClientConfig(c.endpoint)
    case Server(s) => ServerConfig(s.listen)
  }

  function ParamsOf<E, O>(p: Participant<E, O>): ProtocolParameters
  {
    match p
    case Client(c) => c.protocolParams
    case Server(s) => s.protocolParams
  }

  function EtsiClientOf<E, O>(p: Participant<E, O>): E
  {
    match p
    case Client(c) => c.etsiClient
    case Server(s) => s.etsiClient
  }

  function OskHandlerOf<E, O>(p: Participant<E, O>): O
  {
    match p
    case Client(c) => c.oskHandler
    case Server(s) => s.oskHandler
  }

  /**
    `DaisywayTcpParticipant::from_config`: the configured role decides the
    variant, the address is kept, and the protocol parameters, ETSI client
    and output-key handler are passed on unchanged; only the server takes
    the rekey interval.
  */
  function FromConfig<E(==), O(==)>(protocolParams: ProtocolParameters, config: ParticipantConfig,
                                    etsiClient: E, oskHandler: O, rekeyInterval: nat): (p: Participant<E, O>)
    ensures p.Client? <==> config.ClientConfig?
    ensures ConfigOf(p) == config
    ensures ParamsOf(p) == protocolParams && EtsiClientOf(p) == etsiClient && OskHandlerOf(p) == oskHandler
    ensures p.Server? ==> p.server.rekeyInterval == rekeyInterval
  {
    match config
    case ClientConfig(endpoint) => Client(TcpClient(protocolParams, endpoint, etsiClient, oskHandler))
    case ServerConfig(listen) => Server(TcpServer(protocolParams, listen, etsiClient, oskHandler, rekeyInterval))
  }

  /** `event_loop`: the loop of the variant the participant is. */
  function EventLoop<E, O, R>(p: Participant<E, O>, clientLoop: TcpClient<E, O> -> R, serverLoop: TcpServer<E, O> -> R): R
  {
    match p
    case Client(c) => clientLoop(c)
    case Server(s) => serverLoop(s)
  }

  /**
    A configured participant runs the client loop on the configured endpoint
    when configured as a client and the server loop on the configured
    address and interval when configured as a server, each with the given
    parameters, ETSI client and output-key handler; never the other one.
  */
  lemma ConfiguredEventLoop<E, O, R>(protocolParams: ProtocolParameters, config: ParticipantConfig,
                                     etsiClient: E, oskHandler: O, rekeyInterval: nat,
                                     clientLoop: TcpClient<E, O> -> R, serverLoop: TcpServer<E, O> -> R)
    ensures var r := EventLoop(FromConfig(protocolParams, config, etsiClient, oskHandler, rekeyInterval), clientLoop, serverLoop);
      && (config.ClientConfig? ==> r == clientLoop(TcpClient(protocolParams, config.endpoint, etsiClient, oskHandler)))
      && (config.ServerConfig? ==> r == serverLoop(TcpServer(protocolParams, config.listen, etsiClient, oskHandler, rekeyInterval)))
  {
  }
}
