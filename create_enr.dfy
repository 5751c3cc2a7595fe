/**
 * `rocketpool obol create-enr` (rocketpool-cli/obol/create-enr.go): Charon
 * creates the node's ENR private key in the add-on's data directory.
 */
module CreateEnr {
  import opened Wrappers
  import opened GoText
  import opened Config
  import opened Addon
  import opened Host

  /** The `docker run … create enr` command line. */
  function CreateEnrCommand(dataDir: string, tag: string): string {
    Spaced(DockerRun(dataDir, tag), ["create", "enr"])
  }

  /** `createEnr` as a function of the client's answers. */
  function CreateEnrRun(services: Services): Run
    requires Loadable(services)
  {
    match services.config
    case Failure(e) => Run(Fail(LoadError(e)), [LoadConfigCall])
    case Success(cfg) =>
      if !IsEnabled(GetConfig(cfg.obol)) then Run(Fail(Message(CapitalDisabledError)), [LoadConfigCall])
      else StreamedRun(services, [LoadConfigCall], CreateEnrCommand(DataDir(cfg), GetContainerTag(cfg.obol)),
                       "error creating ENR: ")
  }

  /** `createEnr`, making its calls through the client. */
  method CreateEnrCommandRun(client: Client) returns (r: Outcome<CliError>)
    requires Loadable(client.services)
    modifies client`log
    ensures r == CreateEnrRun(client.services).outcome
    ensures client.log == old(client.log) + CreateEnrRun(client.services).calls
  {
    var loaded := client.LoadConfig();
    if loaded.Failure? {
      return Fail(LoadError(loaded.error));
    }
    var cfg := loaded.value;
    if !GetEnabledParameter(cfg.obol).value.b {
      return Fail(Message(CapitalDisabledError));
    }
    var containerTag := GetContainerTag(cfg.obol);
    var obolDataDir := DataDir(cfg);
    var cmd := CreateEnrCommand(obolDataDir, containerTag);
    var ran := client.RunDockerCommand(cmd);
    if ran.Fail? {
      return Fail(Message("error creating ENR: " + ran.error));
    }
    return Pass;
  }

  /**
   * A configuration that does not load, or a disabled add-on, ends the
   * command with nothing run; otherwise exactly one command is run, the
   * one-shot `create enr` over `<RocketPoolDirectory>/addons/obol` with the
   * configured tag, and its failure is the error, wrapped.
   */
  lemma CreateEnrRunsOneCommand(services: Services)
    requires Loadable(services)
    ensures var run := CreateEnrRun(services);
      && (services.config.Failure? ==> run == Run(Fail(LoadError(services.config.error)), [LoadConfigCall]))
      && (services.config.Success? && !IsEnabled(services.config.value.obol.cfg) ==>
            run == Run(Fail(Message(CapitalDisabledError)), [LoadConfigCall]))
      && (services.config.Success? && IsEnabled(services.config.value.obol.cfg) ==>
            var cfg := services.config.value;
            var cmd := CreateEnrCommand(cfg.rocketPoolDirectory + "/addons/obol", ContainerTagOf(cfg.obol.cfg));
            && run.calls == [LoadConfigCall, Streamed(cmd)]
            && (run.outcome.Pass? <==> services.streamed(cmd).Pass?)
            && (run.outcome.Fail? ==> run.outcome.error == Message("error creating ENR: " + services.streamed(cmd).error)))
  {
  }

  /** The command line splits into the `docker run` words, then `create` and `enr`. */
  lemma CreateEnrCommandWords(dataDir: string, tag: string)
    requires Word(dataDir) && Word(tag)
    ensures Split(CreateEnrCommand(dataDir, tag), ' ') == DockerRunWords(dataDir, tag) + ["create", "enr"]
  {
    var args := ["create", "enr"];
    assert AllWords(args) by {
      assert Word(args[0]) && Word(args[1]);
    }
    DockerRunSplits(dataDir, tag, args);
  }
}
