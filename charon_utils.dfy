/**
 * Helpers shared by the Obol subcommands (rocketpool-cli/obol/utils.go):
 * reading the local node's ENR from Charon, and the network name Charon
 * is given.
 */
module CharonUtils {
  import opened Wrappers
  import opened GoText
  import opened Host

  /** Asks the running Charon container for its ENR. */
  function ExecEnrCommand(containerName: string): string {
    "docker exec " + containerName + " charon enr"
  }

  /** Runs `charon enr` in a one-shot container over the data directory. */
  function RunEnrCommand(tag: string, dataDir: string): string {
    Spaced(DockerRun(dataDir, tag), ["enr"])
  }

  const RetrieveGuidance := "\n\nPlease ensure you have created an ENR first with 'rocketpool obol create-enr'"

  /** The text of the error returned when neither way of reading the ENR works. */
  function RetrieveEnrError(e: string): string {
    "error retrieving ENR: " + e + RetrieveGuidance
  }

  /** What reading the local ENR returns, and the commands it issues, in order. */
  datatype EnrRead = EnrRead(result: Result<string, string>, calls: seq<Call>)

  /**
   * `GetLocalENR` as a function of the client's answers: the exec command
   * first; only if it fails, the one-shot run; the output is trimmed.
   */
  function LocalEnrRead(services: Services, tag: string, dataDir: string, containerName: string): EnrRead {
    var first := ExecEnrCommand(containerName);
    match services.captured(first)
    case Output(text) => EnrRead(Success(TrimSpace(text)), [Captured(first)])
    case CommandFailed(_) =>
      var second := RunEnrCommand(tag, dataDir);
      match services.captured(second)
      case Output(text) => EnrRead(Success(TrimSpace(text)), [Captured(first), Captured(second)])
      case CommandFailed(e) => EnrRead(Failure(RetrieveEnrError(e)), [Captured(first), Captured(second)])
  }

  /** `GetLocalENR`, issuing its commands through the client. */
  method GetLocalEnr(client: Client, tag: string, dataDir: string, containerName: string)
    returns (r: Result<string, string>)
    modifies client`log
    ensures r == LocalEnrRead(client.services, tag, dataDir, containerName).result
    ensures client.log == old(client.log) + LocalEnrRead(client.services, tag, dataDir, containerName).calls
  {
    var cmd := ExecEnrCommand(containerName);
    var output := client.RunCommandAndReturnOutput(cmd);
    if output.CommandFailed? {
      cmd := RunEnrCommand(tag, dataDir);
      output := client.RunCommandAndReturnOutput(cmd);
      assert client.log == old(client.log) + [Captured(ExecEnrCommand(containerName)), Captured(cmd)];
      if output.CommandFailed? {
        return Failure(RetrieveEnrError(output.error));
      }
    }
    return Success(TrimSpace(output.text));
  }

  /**
   * The first command is always `docker exec <name> charon enr`; one or
   * two commands are issued, all captured, and a second one only when
   * the first failed, in which case it is the one-shot `docker run … enr`.
   */
  lemma LocalEnrCommands(services: Services, tag: string, dataDir: string, containerName: string)
    ensures var read := LocalEnrRead(services, tag, dataDir, containerName);
      && 1 <= |read.calls| <= 2
      && read.calls[0] == Captured(ExecEnrCommand(containerName))
      && (|read.calls| == 2 <==> services.captured(ExecEnrCommand(containerName)).CommandFailed?)
      && (|read.calls| == 2 ==> read.calls[1] == Captured(RunEnrCommand(tag, dataDir)))
  {
  }

  /** Reading the ENR captures the output of one or two commands and streams none. */
  lemma LocalEnrCaptures(services: Services, tag: string, dataDir: string, containerName: string)
    ensures var read := LocalEnrRead(services, tag, dataDir, containerName);
      1 <= |read.calls| <= 2 && forall j :: 0 <= j < |read.calls| ==> read.calls[j].Captured?
  {
  }

  /** When the running container answers, its trimmed output is the ENR and nothing else is run. */
  lemma LocalEnrFastPath(services: Services, tag: string, dataDir: string, containerName: string)
    requires services.captured(ExecEnrCommand(containerName)).Output?
    ensures LocalEnrRead(services, tag, dataDir, containerName)
            == EnrRead(Success(TrimSpace(services.captured(ExecEnrCommand(containerName)).text)),
                       [Captured(ExecEnrCommand(containerName))])
  {
  }

  /**
   * When the running container does not answer but the one-shot run does,
   * the read succeeds with the run's trimmed output; the first failure
   * leaves no trace in the result.
   */
  lemma LocalEnrFallback(services: Services, tag: string, dataDir: string, containerName: string)
    requires services.captured(ExecEnrCommand(containerName)).CommandFailed?
    requires services.captured(RunEnrCommand(tag, dataDir)).Output?
    ensures LocalEnrRead(services, tag, dataDir, containerName)
            == EnrRead(Success(TrimSpace(services.captured(RunEnrCommand(tag, dataDir)).text)),
                       [Captured(ExecEnrCommand(containerName)), Captured(RunEnrCommand(tag, dataDir))])
  {
  }

  /**
   * The read fails exactly when both commands fail, and the error then
   * reports the second failure only: whatever the first command's error
   * was, the result is the same.
   */
  lemma LocalEnrFailsIffBothFail(services: Services, tag: string, dataDir: string, containerName: string)
    ensures var read := LocalEnrRead(services, tag, dataDir, containerName);
      && (read.result.Failure? <==>
            services.captured(ExecEnrCommand(containerName)).CommandFailed?
            && services.captured(RunEnrCommand(tag, dataDir)).CommandFailed?)
      && (read.result.Failure? ==>
            read.result.error == RetrieveEnrError(services.captured(RunEnrCommand(tag, dataDir)).error))
  {
  }

  /** An ENR read successfully has no surrounding white space, and reading it again gives it back intact. */
  lemma LocalEnrIsTrimmed(services: Services, tag: string, dataDir: string, containerName: string)
    ensures var read := LocalEnrRead(services, tag, dataDir, containerName);
      read.result.Success? ==>
        var enr := read.result.value;
        && (|enr| > 0 ==> !IsSpace(enr[0]) && !IsSpace(enr[|enr| - 1]))
        && TrimSpace(enr) == enr
  {
    var read := LocalEnrRead(services, tag, dataDir, containerName);
    if read.result.Success? {
      var first := services.captured(ExecEnrCommand(containerName));
      var text := if first.Output? then first.text else services.captured(RunEnrCommand(tag, dataDir)).text;
      TrimSpaceIdempotent(text);
    }
  }

  /** The one-shot command is `docker run` with the data directory, the tag, then `enr`. */
  lemma RunEnrCommandWords(tag: string, dataDir: string)
    requires Word(tag) && Word(dataDir)
    ensures Split(RunEnrCommand(tag, dataDir), ' ') == DockerRunWords(dataDir, tag) + ["enr"]
  {
    var args := ["enr"];
    assert AllWords(args) by {
      assert Word(args[0]);
    }
    DockerRunSplits(dataDir, tag, args);
  }

  /** `GetCharonNetwork`: the network name handed to Charon. */
  function CharonNetwork(network: Network): (name: string)
    ensures name == "mainnet" || name == "hoodi"
    ensures name == "hoodi" <==> network == Devnet || network == Testnet
  {
    match network
    case Mainnet => "mainnet"
    case Devnet => "hoodi"
    case Testnet => "hoodi"
    case OtherNetwork(_) => "mainnet"
  }
}
