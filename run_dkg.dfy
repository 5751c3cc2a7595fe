/**
 * `rocketpool obol run-dkg` (rocketpool-cli/obol/run-dkg.go, alias `dkg`): a cluster member
 * runs the DKG ceremony against the configured cluster definition URL.
 */
module RunDkg {
  import opened Wrappers
  import opened GoText
  import opened Config
  import opened Addon
  import opened Host

  const NoDefinitionUrlError := "cluster definition URL is not set. Please configure it with 'rocketpool service config'"

  /** The words after the `docker run` prefix; the URL is passed as it is, unquoted. */
  function RunDkgArguments(url: string): seq<string> {
    ["dkg", "--definition-file=" + url]
  }

  /** The `docker run … dkg --definition-file=<url>` command line. */
  function RunDkgCommand(dataDir: string, tag: string, url: string): string {
    Spaced(DockerRun(dataDir, tag), RunDkgArguments(url))
  }

  /** `runDKG` as a function of the client's answers. */
  function RunDkgRun(services: Services): Run
    requires Loadable(services)
  {
    match services.config
    case Failure(e) => Run(Fail(LoadError(e)), [LoadConfigCall])
    case Success(cfg) =>
      var c := GetConfig(cfg.obol);
      if !IsEnabled(c) then Run(Fail(Message(DisabledError)), [LoadConfigCall])
      else if ClusterDefinitionUrlOf(c) == "" then Run(Fail(Message(NoDefinitionUrlError)), [LoadConfigCall])
      else StreamedRun(services, [LoadConfigCall],
                       RunDkgCommand(DataDir(cfg), GetContainerTag(cfg.obol), ClusterDefinitionUrlOf(c)),
                       "error running DKG ceremony: ")
  }

  /** `runDKG`, making its calls through the client. */
  method RunDkgCommandRun(client: Client) returns (r: Outcome<CliError>)
    requires Loadable(client.services)
    modifies client`log
    ensures r == RunDkgRun(client.services).outcome
    ensures client.log == old(client.log) + RunDkgRun(client.services).calls
  {
    var loaded := client.LoadConfig();
    if loaded.Failure? {
      return Fail(LoadError(loaded.error));
    }
    var cfg := loaded.value;
    if !GetEnabledParameter(cfg.obol).value.b {
      return Fail(Message(DisabledError));
    }
    var obolCfg := GetConfig(cfg.obol);
    var obolDataDir := DataDir(cfg);
    var containerTag := GetContainerTag(cfg.obol);
    var cmd: string;
    var clusterDefUrl := ClusterDefinitionUrlOf(obolCfg);
    if clusterDefUrl == "" {
      return Fail(Message(NoDefinitionUrlError));
    }
    cmd := RunDkgCommand(obolDataDir, containerTag, clusterDefUrl);
    var ran := client.RunDockerCommand(cmd);
    if ran.Fail? {
      return Fail(Message("error running DKG ceremony: " + ran.error));
    }
    return Pass;
  }

  /**
   * The guards, in order: the load, then the enabled flag, then the URL.
   * Each failure ends the command with nothing run, and the disabled error
   * wins over a missing URL.
   */
  lemma RunDkgGuards(services: Services)
    requires Loadable(services)
    ensures var run := RunDkgRun(services);
      && (services.config.Failure? ==> run == Run(Fail(LoadError(services.config.error)), [LoadConfigCall]))
      && (services.config.Success? && !IsEnabled(services.config.value.obol.cfg) ==>
            run == Run(Fail(Message(DisabledError)), [LoadConfigCall]))
      && (services.config.Success? && IsEnabled(services.config.value.obol.cfg)
          && ClusterDefinitionUrlOf(services.config.value.obol.cfg) == "" ==>
            run == Run(Fail(Message(NoDefinitionUrlError)), [LoadConfigCall]))
  {
  }

  /**
   * Past the guards exactly one command is run: the member's `dkg` over
   * `<RocketPoolDirectory>/addons/obol` with the configured tag and URL.
   * The command's failure is the error, wrapped; otherwise the command
   * succeeds.
   */
  lemma RunDkgRunsOneCommand(services: Services)
    requires Loadable(services)
    ensures var run := RunDkgRun(services);
      && (|run.calls| == 2 <==>
            services.config.Success? && IsEnabled(services.config.value.obol.cfg)
            && ClusterDefinitionUrlOf(services.config.value.obol.cfg) != "")
      && (|run.calls| != 2 ==> run.calls == [LoadConfigCall] && run.outcome.Fail?)
      && (|run.calls| == 2 ==>
            var cfg := services.config.value;
            var cmd := RunDkgCommand(cfg.rocketPoolDirectory + "/addons/obol", ContainerTagOf(cfg.obol.cfg),
                                     ClusterDefinitionUrlOf(cfg.obol.cfg));
            && run.calls == [LoadConfigCall, Streamed(cmd)]
            && (run.outcome.Pass? <==> services.streamed(cmd).Pass?)
            && (run.outcome.Fail? ==>
                  run.outcome.error == Message("error running DKG ceremony: " + services.streamed(cmd).error)))
  {
  }

  /**
   * The command line splits into the `docker run` words, `dkg` and the
   * definition-file flag carrying the URL verbatim, when none of the three
   * values holds a space. The URL is not quoted, so a URL with a space in
   * it would not stay one argument.
   */
  lemma RunDkgCommandWords(dataDir: string, tag: string, url: string)
    requires Word(dataDir) && Word(tag) && Word(url)
    ensures Split(RunDkgCommand(dataDir, tag, url), ' ')
            == DockerRunWords(dataDir, tag) + ["dkg", "--definition-file=" + url]
  {
    var args := RunDkgArguments(url);
    assert AllWords(args) by {
      var flag := "--definition-file=";
      assert forall j :: 0 <= j < |flag + url| ==> (flag + url)[j] == if j < |flag| then flag[j] else url[j - |flag|];
    }
    DockerRunSplits(dataDir, tag, args);
  }
}
