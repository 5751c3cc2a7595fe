/**
 * `rocketpool obol show-enr` (rocketpool-cli/obol/show-enr.go): shows the
 * local node's ENR, read through `GetLocalENR`.
 */
module ShowEnr {
  import opened Wrappers
  import opened GoText
  import opened Config
  import opened Addon
  import opened Host
  import opened CharonUtils

  /** What `showEnr` ends with: the ENR it prints, or its error; and the calls it made. */
  datatype Shown = Shown(result: Result<string, CliError>, calls: seq<Call>)

  /** `showEnr` as a function of the client's answers. */
  function ShowEnrRun(services: Services): Shown
    requires Loadable(services)
  {
    match services.config
    case Failure(e) => Shown(Failure(LoadError(e)), [LoadConfigCall])
    case Success(cfg) =>
      if !IsEnabled(GetConfig(cfg.obol)) then Shown(Failure(Message(CapitalDisabledError)), [LoadConfigCall])
      else match services.containerPrefix
        case Failure(e) =>
          Shown(Failure(Message("error getting container prefix: " + e)), [LoadConfigCall, ContainerPrefixCall])
        case Success(prefix) =>
          var read := LocalEnrRead(services, GetContainerTag(cfg.obol), DataDir(cfg), FullContainerName(prefix, cfg.obol));
          match read.result
          case Failure(e) => Shown(Failure(Message(e)), [LoadConfigCall, ContainerPrefixCall] + read.calls)
          case Success(enr) => Shown(Success(enr), [LoadConfigCall, ContainerPrefixCall] + read.calls)
  }

  /** `showEnr`, making its calls through the client. */
  method ShowEnrCommandRun(client: Client) returns (r: Result<string, CliError>)
    requires Loadable(client.services)
    modifies client`log
    ensures r == ShowEnrRun(client.services).result
    ensures client.log == old(client.log) + ShowEnrRun(client.services).calls
  {
    var loaded := client.LoadConfig();
    if loaded.Failure? {
      return Failure(LoadError(loaded.error));
    }
    var cfg := loaded.value;
    if !GetEnabledParameter(cfg.obol).value.b {
      return Failure(Message(CapitalDisabledError));
    }
    var containerName := GetContainerName(cfg.obol);
    var prefix := client.GetContainerPrefix();
    if prefix.Failure? {
      return Failure(Message("error getting container prefix: " + prefix.error));
    }
    var fullContainerName := prefix.value + "_" + containerName;
    assert fullContainerName == FullContainerName(prefix.value, cfg.obol);
    var containerTag := GetContainerTag(cfg.obol);
    var obolDataDir := DataDir(cfg);
    assert client.log == old(client.log) + [LoadConfigCall, ContainerPrefixCall];
    var enr := GetLocalEnr(client, containerTag, obolDataDir, fullContainerName);
    LogAppend(old(client.log), [LoadConfigCall, ContainerPrefixCall],
              LocalEnrRead(client.services, containerTag, obolDataDir, fullContainerName).calls);
    if enr.Failure? {
      return Failure(Message(enr.error));
    }
    return Success(enr.value);
  }

  /**
   * A configuration that does not load or a disabled add-on ends the
   * command before the container prefix is asked for; a prefix error ends
   * it before any ENR command is issued.
   */
  lemma ShowEnrGuards(services: Services)
    requires Loadable(services)
    ensures var shown := ShowEnrRun(services);
      && (services.config.Failure? ==> shown == Shown(Failure(LoadError(services.config.error)), [LoadConfigCall]))
      && (services.config.Success? && !IsEnabled(services.config.value.obol.cfg) ==>
            shown == Shown(Failure(Message(CapitalDisabledError)), [LoadConfigCall]))
      && (services.config.Success? && IsEnabled(services.config.value.obol.cfg) && services.containerPrefix.Failure? ==>
            shown == Shown(Failure(Message("error getting container prefix: " + services.containerPrefix.error)),
                           [LoadConfigCall, ContainerPrefixCall]))
  {
  }

  /**
   * Past the guards `showEnr` is `GetLocalENR` for the configured tag, the
   * data directory `<RocketPoolDirectory>/addons/obol` and the container
   * `<prefix>_addon_charon`: the same commands, the same ENR, and its
   * error passed on unchanged.
   */
  lemma ShowEnrDelegates(services: Services)
    requires Loadable(services)
    requires services.config.Success? && IsEnabled(services.config.value.obol.cfg) && services.containerPrefix.Success?
    ensures var cfg := services.config.value;
      var read := LocalEnrRead(services, ContainerTagOf(cfg.obol.cfg), cfg.rocketPoolDirectory + "/addons/obol",
                               services.containerPrefix.value + "_addon_charon");
      var shown := ShowEnrRun(services);
      && shown.calls == [LoadConfigCall, ContainerPrefixCall] + read.calls
      && (shown.result.Success? <==> read.result.Success?)
      && (shown.result.Success? ==> shown.result.value == read.result.value)
      && (shown.result.Failure? ==> shown.result.error == Message(read.result.error))
  {
    var cfg := services.config.value;
    assert FullContainerName(services.containerPrefix.value, cfg.obol) == services.containerPrefix.value + "_addon_charon";
    assert DataDir(cfg) == cfg.rocketPoolDirectory + "/addons/obol";
  }

  /** The first ENR command `showEnr` issues asks the running `<prefix>_addon_charon` container. */
  lemma ShowEnrAsksRunningContainerFirst(services: Services)
    requires Loadable(services)
    requires services.config.Success? && IsEnabled(services.config.value.obol.cfg) && services.containerPrefix.Success?
    ensures var shown := ShowEnrRun(services);
      |shown.calls| >= 3
      && shown.calls[2] == Captured("docker exec " + services.containerPrefix.value + "_addon_charon" + " charon enr")
  {
    var cfg := services.config.value;
    var name := services.containerPrefix.value + "_addon_charon";
    LocalEnrCommands(services, ContainerTagOf(cfg.obol.cfg), cfg.rocketPoolDirectory + "/addons/obol", name);
    ShowEnrDelegates(services);
  }
}
