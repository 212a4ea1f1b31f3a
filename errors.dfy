/**
  The error values of the model. The source reports every failure as an
  `anyhow::Error`; the model keeps one constructor per distinct cause so that
  contracts can say which failure a call ends with.
*/
module Errors {

  datatype IoErrorKind = Interrupted | UnexpectedEof | BrokenPipe | OtherIo

  datatype Error =
    | Io(kind: IoErrorKind)          // a failed read or write on a stream or file
    | Transport                      // the HTTP request to the QKD device did not complete
    | BadStatus(status: nat)         // the QKD device answered with a non-success HTTP status
    | MalformedBody                  // the body was not a JSON key container
    | WrongKeyCount(count: nat)      // the key container did not hold exactly one key
    | WrongKeyLength(length: nat)    // the decoded key was shorter than 32 bytes
    | Panic                          // an `assert!`, `unwrap` or `expect` failed
    | InvalidAck(received: int)      // the rekey acknowledgement byte was not REKEY_ACK
    | OskRejected                    // the output-key handler refused the key
    | ChannelClosed                  // the receiving side of a channel is gone
    | Base64Invalid                  // a Base64 text did not decode into a 32-byte key
    | Config(reason: ConfigError)    // the configuration was rejected at start-up

  datatype ConfigError =
    | PskFile
    | LocalPeerId
    | RemotePeerId
    | EtsiClient
    | NoKeyOutput
    | BothKeyOutputs
    | WireGuardUnsupported
    | WireGuardSetup
    | IncompleteTlsArguments
}
