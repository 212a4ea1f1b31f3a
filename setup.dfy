/**
  `Daisyway::from_config`: the start-up decisions made from the TOML
  configuration. The rekey interval defaults to 120 seconds, the PSK is read
  from `psk_file` or is 32 zero bytes, both WireGuard public keys must be
  Base64, and exactly one key output must be chosen: an outfile, or (on
  Linux only) a WireGuard interface. The chosen output is wrapped in a
  deadman that erases the key `rekey_interval + 30` seconds after the last
  fresh one.

  What the start-up touches outside the decisions is an input: the files
  that can be opened, whether the TLS client of the ETSI connection can be
  built, whether the WireGuard handler can be set up, and whether the
  target is Linux.
*/
module Setup {
  import opened Bytes
  import opened Wrappers
  import opened Errors
  import opened Foreign
  import opened Crypto
  import opened Util
  import opened TcpParticipant

  /** The `[wireguard]` table: the two public keys as Base64 text and the optional interface. */
  datatype WireGuardConfig = WireGuardConfig(localPeerId: string, remotePeerId: string, interface: Option<string>)

  /** The `[etsi014]` table, without the TLS settings, whose only effect here is whether the client builds. */
  datatype Etsi014Config = Etsi014Config(url: string, remoteSaeId: string, intervalSecs: Option<nat>)

  datatype DaisywayConfig = DaisywayConfig(
    etsi014: Etsi014Config,
    wireguard: WireGuardConfig,
    outfile: Option<string>,
    participant: ParticipantConfig,
    pskFile: Option<string>)

  /**
    The outside world at start-up: the contents of the files that can be
    opened, the outcome of building the TLS client, the outcome of
    `WireGuardOskHandler::setup`, and the target operating system.
  */
  datatype Environment = Environment(
    files: map<string, seq<ReadAnswer>>,
    tlsClient: Outcome<Error>,
    wireGuardSetup: Outcome<Error>,
    linux: bool)

  /** The ETSI connection: where the QKD device is and whom to ask for keys. */
  datatype EtsiEndpoint = EtsiEndpoint(url: string, remoteSaeId: string)

  /** Where derived keys go: a file, or the PSK slot of a WireGuard peer on an interface. */
  datatype KeyOutput = OutfileOutput(path: string) | WireGuardOutput(interface: string, peer: string)

  /** `OskDeadman::start`: the key output and the time after which the deadman erases the key. */
  datatype DeadmanSetup = DeadmanSetup(output: KeyOutput, eraseAfter: nat)

  datatype Daisyway = Daisyway(participant: Participant<EtsiEndpoint, DeadmanSetup>)

  /** The erase margin of `start_deadman`, in seconds. */
  const ERASE_MARGIN: nat := 30

  /** `interval_secs`, or `REKEY_INTERVAL` when it is not configured. */
  function RekeyIntervalOf(cfg: DaisywayConfig): nat
  {
    match cfg.etsi014.intervalSecs
    case Some(secs) => secs
    case None => REKEY_INTERVAL
  }

  /** `start_deadman`. */
  function StartDeadman(output: KeyOutput, rekeyInterval: nat): DeadmanSetup
  {
    DeadmanSetup(output, rekeyInterval + ERASE_MARGIN)
  }

  /** The PSK: loaded from `psk_file` when one is given, 32 zero bytes otherwise. */
  function LoadPsk(c: Codecs, env: Environment, pskFile: Option<string>): Result<Key, Error>
  {
    match pskFile
    case None => Ok(ZeroKey())
    case Some(path) =>
      if path !in env.files then Err(Config(PskFile))
      else match LoadBase64Key(c, env.files[path])
        case Err(_) => Err(Config(PskFile))
        case Ok(psk) => Ok(psk)
  }

  /** The key output: exactly one of `wireguard.interface` and `outfile` must be set, and WireGuard only on Linux. */
  function KeyOutputOf(cfg: DaisywayConfig, env: Environment, rekeyInterval: nat): Result<DeadmanSetup, Error>
  {
    match (cfg.wireguard.interface, cfg.outfile)
    case (None, None) => Err(Config(NoKeyOutput))
    case (Some(_), Some(_)) => Err(Config(BothKeyOutputs))
    case (None, Some(path)) => Ok(StartDeadman(OutfileOutput(path), rekeyInterval))
    case (Some(interface), None) =>
      if !env.linux then Err(Config(WireGuardUnsupported))
      else if env.wireGuardSetup.Fail? then Err(Config(WireGuardSetup))
      else Ok(StartDeadman(WireGuardOutput(interface, cfg.wireguard.remotePeerId), rekeyInterval))
  }

  /** `Daisyway::from_config`, each step in the order of the source: the first failure is the result. */
  function FromConfig(c: Codecs, env: Environment, cfg: DaisywayConfig): (r: Result<Daisyway, Error>)
  {
    var rekeyInterval := RekeyIntervalOf(cfg);
    match LoadPsk(c, env, cfg.pskFile)
    case Err(e) => Err(e)
    case Ok(psk) =>
      match Base64ToKey(c, Ascii(cfg.wireguard.localPeerId))
      case Err(_) => Err(Config(LocalPeerId))
      case Ok(localPeerId) =>
        match Base64ToKey(c, Ascii(cfg.wireguard.remotePeerId))
        case Err(_) => Err(Config(RemotePeerId))
        case Ok(remotePeerId) =>
          var protocolParams := ProtocolParameters(psk, localPeerId, remotePeerId);
          if env.tlsClient.Fail? then Err(Config(EtsiClient))
          else
            var etsiClient := EtsiEndpoint(cfg.etsi014.url, cfg.etsi014.remoteSaeId);
            match KeyOutputOf(cfg, env, rekeyInterval)
            case Err(e) => Err(e)
            case Ok(deadman) =>
              Ok(Daisyway(TcpParticipant.FromConfig(protocolParams, cfg.participant, etsiClient, deadman, rekeyInterval)))
  }

  /**
    Start-up succeeds exactly when the PSK loads, both public keys decode,
    the TLS client builds, and exactly one key output is configured, the
    WireGuard one only on Linux and only when its handler can be set up.
  */
  lemma FromConfigSucceeds(c: Codecs, env: Environment, cfg: DaisywayConfig)
    ensures FromConfig(c, env, cfg).Ok? <==>
      && LoadPsk(c, env, cfg.pskFile).Ok?
      && Base64ToKey(c, Ascii(cfg.wireguard.localPeerId)).Ok?
      && Base64ToKey(c, Ascii(cfg.wireguard.remotePeerId)).Ok?
      && env.tlsClient.Pass?
      && (cfg.wireguard.interface.Some? != cfg.outfile.Some?)
      && (cfg.wireguard.interface.Some? ==> env.linux && env.wireGuardSetup.Pass?)
  {
  }

  /** Neither or both key outputs configured is an error, whatever else the configuration says. */
  lemma KeyOutputMustBeUnique(c: Codecs, env: Environment, cfg: DaisywayConfig)
    requires cfg.wireguard.interface.Some? == cfg.outfile.Some?
    ensures FromConfig(c, env, cfg).Err?
    ensures LoadPsk(c, env, cfg.pskFile).Ok?
            && Base64ToKey(c, Ascii(cfg.wireguard.localPeerId)).Ok?
            && Base64ToKey(c, Ascii(cfg.wireguard.remotePeerId)).Ok?
            && env.tlsClient.Pass?
            ==> FromConfig(c, env, cfg).error == Config(if cfg.outfile.None? then NoKeyOutput else BothKeyOutputs)
  {
  }

  /** A WireGuard interface as the only output is refused on any other system than Linux. */
  lemma WireGuardOnlyOnLinux(c: Codecs, env: Environment, cfg: DaisywayConfig)
    requires cfg.wireguard.interface.Some? && cfg.outfile.None? && !env.linux
    ensures FromConfig(c, env, cfg).Err?
  {
  }

  /**
    What a successful start-up builds: the participant of the configured
    role with the loaded PSK (zero without a PSK file) and the decoded
    public keys, the configured ETSI device, the configured rekey interval
    (120 seconds by default), and a deadman over the chosen output that
    erases after the interval plus 30 seconds.
  */
  lemma FromConfigBuilds(c: Codecs, env: Environment, cfg: DaisywayConfig)
    requires FromConfig(c, env, cfg).Ok?
    ensures var p := FromConfig(c, env, cfg).value.participant;
      var interval := if cfg.etsi014.intervalSecs.Some? then cfg.etsi014.intervalSecs.value else 120;
      && ConfigOf(p) == cfg.participant
      && ParamsOf(p).psk == LoadPsk(c, env, cfg.pskFile).value
      && (cfg.pskFile.None? ==> ParamsOf(p).psk == Zeros(KEY_LENGTH))
      && Ok(ParamsOf(p).localPeerId) == Base64ToKey(c, Ascii(cfg.wireguard.localPeerId))
      && Ok(ParamsOf(p).remotePeerId) == Base64ToKey(c, Ascii(cfg.wireguard.remotePeerId))
      && EtsiClientOf(p) == EtsiEndpoint(cfg.etsi014.url, cfg.etsi014.remoteSaeId)
      && (p.Server? ==> p.server.rekeyInterval == interval)
      && OskHandlerOf(p).eraseAfter == interval + 30
      && OskHandlerOf(p).output ==
           if cfg.outfile.Some? then OutfileOutput(cfg.outfile.value)
           else WireGuardOutput(cfg.wireguard.interface.value, cfg.wireguard.remotePeerId)
  {
  }

  /**
    A PSK file holding the Base64 text of a key, with or without a final
    newline, gives that key as the PSK.
  */
  lemma PskFromFile(c: Codecs, env: Environment, path: string, k: Key, newline: bool)
    requires Lawful(c)
    requires path in env.files
    requires Available(env.files[path]) == c.base64Encode(k) + (if newline then [NEWLINE] else [])
    requires Stop(env.files[path]).None?
    ensures LoadPsk(c, env, Some(path)) == Ok(k)
  {
    LoadBase64KeyRoundTrip(c, k, env.files[path], newline);
  }
}
