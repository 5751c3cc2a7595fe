/**
 * What the Obol subcommands of the Rocket Pool CLI see of the outside
 * world. The Rocket Pool client (`rocketpool.Client`) is a class whose
 * answers come from a fixed `Services` value and whose `log` records every
 * call made through it, in order; the file system, the ENR parser and the
 * shell quoter are the uninterpreted functions of `Externals`.
 */
module Host {
  import opened Wrappers
  import opened GoText
  import opened Config
  import opened Addon

  /**
   * The Smartnode network setting (`cfgtypes.Network`). `OtherNetwork`
   * stands for any setting other than the mainnet, devnet and testnet
   * constants; its name is never one of those three.
   */
  datatype Network = Mainnet | Devnet | Testnet | OtherNetwork(name: string)

  /** The part of the loaded Smartnode configuration the Obol commands read. */
  datatype RocketPoolConfig = RocketPoolConfig(rocketPoolDirectory: string, network: Network, obol: Obol)

  /** Fee-recipient facts of the node status (addresses already rendered by `Address.Hex`). */
  datatype FeeRecipientInfo = FeeRecipientInfo(isInSmoothingPool: bool, smoothingPoolAddress: string,
                                               feeDistributorAddress: string)

  datatype NodeStatus = NodeStatus(megapoolDeployed: bool, megapoolAddress: string, feeRecipientInfo: FeeRecipientInfo)

  /** What `RunCommandAndReturnOutput` gives back: the captured output, or the run's error text. */
  datatype CommandReply = Output(text: string) | CommandFailed(error: string)

  /** One call through the client, in the order it was made. */
  datatype Call =
    | LoadConfigCall
    | NodeStatusCall
    | ContainerPrefixCall
    | Captured(command: string)   // RunCommandAndReturnOutput
    | Streamed(command: string)   // RunDockerCommand

  /** The answers the Rocket Pool client gives. */
  datatype Services = Services(
    config: Result<RocketPoolConfig, string>,
    nodeStatus: Result<NodeStatus, string>,
    containerPrefix: Result<string, string>,
    captured: string -> CommandReply,
    streamed: string -> Outcome<string>)

  /** `os.Stat` of a path, as far as the commands distinguish it. */
  datatype StatOutcome = Exists | NotExist | StatFailed(error: string)

  /**
   * Functions outside the core: `enode.Parse` (Pass, or its error text),
   * `shellescape.Quote`, the text of strconv's error for a string `Atoi`
   * rejects, and `os.Stat`.
   */
  datatype Externals = Externals(
    parseEnr: string -> Outcome<string>,
    quote: string -> string,
    atoiError: string -> string,
    stat: string -> StatOutcome)

  /**
   * How a subcommand ends in failure: an error returned to the CLI, a Go
   * index panic, or the panic of `make` asked for a capacity it cannot give.
   */
  datatype CliError = Message(text: string) | IndexOutOfRange(index: int, length: int) | CapOutOfRange(capacity: int)

  /** The Rocket Pool client: fixed answers, and the log of what was asked. */
  class Client {
    const services: Services
    var log: seq<Call>

    constructor(services: Services)
      ensures this.services == services && log == []
    {
      this.services := services;
      log := [];
    }

    method LoadConfig() returns (r: Result<RocketPoolConfig, string>)
      modifies this`log
      ensures r == services.config && log == old(log) + [LoadConfigCall]
    {
      r := services.config;
      log := log + [LoadConfigCall];
    }

    method NodeStatus() returns (r: Result<NodeStatus, string>)
      modifies this`log
      ensures r == services.nodeStatus && log == old(log) + [NodeStatusCall]
    {
      r := services.nodeStatus;
      log := log + [NodeStatusCall];
    }

    method GetContainerPrefix() returns (r: Result<string, string>)
      modifies this`log
      ensures r == services.containerPrefix && log == old(log) + [ContainerPrefixCall]
    {
      r := services.containerPrefix;
      log := log + [ContainerPrefixCall];
    }

    method RunCommandAndReturnOutput(cmd: string) returns (r: CommandReply)
      modifies this`log
      ensures r == services.captured(cmd) && log == old(log) + [Captured(cmd)]
    {
      r := services.captured(cmd);
      log := log + [Captured(cmd)];
    }

    method RunDockerCommand(cmd: string) returns (r: Outcome<string>)
      modifies this`log
      ensures r == services.streamed(cmd) && log == old(log) + [Streamed(cmd)]
    {
      r := services.streamed(cmd);
      log := log + [Streamed(cmd)];
    }
  }

  /** How a subcommand ends, and the calls it made through the client, in order. */
  datatype Run = Run(outcome: Outcome<CliError>, calls: seq<Call>)

  /**
   * The last step of a subcommand: one command streamed through
   * `RunDockerCommand` after `calls`; its failure is the subcommand's
   * error, prefixed with `context`.
   */
  function StreamedRun(services: Services, calls: seq<Call>, cmd: string, context: string): (run: Run)
    ensures run.calls == calls + [Streamed(cmd)]
    ensures run.outcome.Pass? <==> services.streamed(cmd).Pass?
    ensures run.outcome.Fail? ==> run.outcome.error == Message(context + services.streamed(cmd).error)
  {
    match services.streamed(cmd)
    case Pass => Run(Pass, calls + [Streamed(cmd)])
    case Fail(e) => Run(Fail(Message(context + e)), calls + [Streamed(cmd)])
  }

  /** No call but possibly the last one streams a command. */
  predicate StreamsOnlyLast(calls: seq<Call>) {
    forall j :: 0 <= j < |calls| - 1 ==> !calls[j].Streamed?
  }

  /** Calls made before such a log, none of them streamed, keep it so. */
  lemma StreamsOnlyLastAfter(before: seq<Call>, calls: seq<Call>)
    requires |calls| >= 1 && StreamsOnlyLast(calls)
    requires forall j :: 0 <= j < |before| ==> !before[j].Streamed?
    ensures StreamsOnlyLast(before + calls)
  {
    forall j | 0 <= j < |before + calls| - 1 ensures !(before + calls)[j].Streamed? {
      if j >= |before| {
        assert (before + calls)[j] == calls[j - |before|];
      }
    }
  }

  /** Appending to a log in two steps is appending the two parts at once. */
  lemma LogAppend(log: seq<Call>, first: seq<Call>, rest: seq<Call>)
    ensures log + first + rest == log + (first + rest)
  {
  }

  /** The loaded configuration holds values of the Go types the commands assert. */
  predicate Loadable(services: Services) {
    services.config.Success? ==> WellTyped(services.config.value.obol.cfg)
  }

  /** The add-on's data directory, `<RocketPoolDirectory>/addons/obol`. */
  function DataDir(cfg: RocketPoolConfig): (dir: string)
    ensures HasPrefix(dir, cfg.rocketPoolDirectory)
    ensures dir[|cfg.rocketPoolDirectory|..] == "/addons/obol"
  {
    cfg.rocketPoolDirectory + "/addons/obol"
  }

  /** Where Charon keeps the local node's private key. */
  function EnrKeyPath(dataDir: string): string {
    dataDir + "/charon-enr-private-key"
  }

  /** The `docker run` line that mounts the data directory into a one-shot Charon container. */
  function DockerRun(dataDir: string, tag: string): string {
    "docker run --rm -v " + dataDir + ":/opt/charon/.charon " + tag
  }

  /** The words `DockerRun` starts a command line with. */
  function DockerRunWords(dataDir: string, tag: string): seq<string> {
    ["docker", "run", "--rm", "-v", dataDir + ":/opt/charon/.charon", tag]
  }

  /** The Compose name of the running Charon container: `<prefix>_addon_charon`. */
  function FullContainerName(prefix: string, obol: Obol): (name: string)
    ensures name == prefix + "_addon_charon"
  {
    prefix + "_" + GetContainerName(obol)
  }

  /** The disabled-add-on error of `create-dkg` and `run-dkg` (lower-case "obol"). */
  const DisabledError := "obol integration is not enabled. Please run 'rocketpool service config' to enable it"

  /** The disabled-add-on error of `create-enr` and `show-enr` (capital "Obol"). */
  const CapitalDisabledError := "Obol integration is not enabled. Please run 'rocketpool service config' to enable it"

  /** `fmt.Errorf("error loading configuration: %w", err)`. */
  function LoadError(e: string): CliError {
    Message("error loading configuration: " + e)
  }

  /** `validateENR`: Pass exactly when the ENR parses, otherwise the parser's error prefixed with "invalid ENR: ". */
  function ValidateEnr(ext: Externals, enr: string): (r: Outcome<string>)
    ensures r.Pass? <==> ext.parseEnr(enr).Pass?
    ensures r.Fail? ==> HasPrefix(r.error, "invalid ENR: ")
                        && r.error[|"invalid ENR: "|..] == ext.parseEnr(enr).error
  {
    match ext.parseEnr(enr)
    case Pass => Pass
    case Fail(e) => Fail("invalid ENR: " + e)
  }

  /** A text with no space in it is one word of a command line. */
  predicate Word(s: string) {
    ' ' !in s
  }

  /** Joining a word in front of a non-empty list puts one space between. */
  lemma JoinCons(x: string, rest: seq<string>, sep: string)
    requires |rest| >= 1
    ensures Join([x] + rest, sep) == x + sep + Join(rest, sep)
  {
    assert ([x] + rest)[1..] == rest;
  }

  /** Joining two non-empty lists of words is joining each and putting a space between. */
  lemma {:induction false} JoinAppend(a: seq<string>, b: seq<string>, sep: string)
    requires |a| >= 1 && |b| >= 1
    ensures Join(a + b, sep) == Join(a, sep) + sep + Join(b, sep)
    decreases |a|
  {
    if |a| == 1 {
      JoinCons(a[0], b, sep);
      assert a + b == [a[0]] + b;
    } else {
      assert a + b == [a[0]] + (a[1..] + b);
      JoinCons(a[0], a[1..] + b, sep);
      JoinAppend(a[1..], b, sep);
      JoinCons(a[0], a[1..], sep);
      assert a == [a[0]] + a[1..];
    }
  }

  /** The `docker run` prefix is its six words joined by spaces. */
  lemma DockerRunIsWords(dataDir: string, tag: string)
    ensures DockerRun(dataDir, tag) == Join(DockerRunWords(dataDir, tag), " ")
  {
    var w := DockerRunWords(dataDir, tag);
    assert w[5..] == [tag];
    assert w[4..] == [w[4]] + w[5..];
    assert w[3..] == [w[3]] + w[4..];
    assert w[2..] == [w[2]] + w[3..];
    assert w[1..] == [w[1]] + w[2..];
    JoinCons(w[4], w[5..], " ");
    JoinCons(w[3], w[4..], " ");
    JoinCons(w[2], w[3..], " ");
    JoinCons(w[1], w[2..], " ");
  }

  predicate AllWords(ws: seq<string>) {
    forall i :: 0 <= i < |ws| ==> Word(ws[i])
  }

  lemma DockerRunWordsAreWords(dataDir: string, tag: string)
    requires Word(dataDir) && Word(tag)
    ensures AllWords(DockerRunWords(dataDir, tag))
  {
    var mount := dataDir + ":/opt/charon/.charon";
    assert forall i :: 0 <= i < |dataDir| ==> mount[i] == dataDir[i];
    assert forall i :: |dataDir| <= i < |mount| ==> mount[i] == ":/opt/charon/.charon"[i - |dataDir|];
  }

  lemma AllWordsAppend(a: seq<string>, b: seq<string>)
    requires AllWords(a) && AllWords(b)
    ensures AllWords(a + b)
  {
    forall k | 0 <= k < |a + b| ensures Word((a + b)[k]) {
      if k >= |a| {
        assert (a + b)[k] == b[k - |a|];
      }
    }
  }

  /** `prefix` followed by each of `args`, each after one space: how a command line is spelled out. */
  function Spaced(prefix: string, args: seq<string>): string
    decreases |args|
  {
    if args == [] then prefix else Spaced(prefix + " " + args[0], args[1..])
  }

  lemma {:induction false} SpacedIsJoin(prefix: string, args: seq<string>)
    requires |args| >= 1
    ensures Spaced(prefix, args) == prefix + " " + Join(args, " ")
    decreases |args|
  {
    if |args| > 1 {
      SpacedIsJoin(prefix + " " + args[0], args[1..]);
      assert prefix + " " + args[0] + " " + Join(args[1..], " ")
             == prefix + " " + (args[0] + " " + Join(args[1..], " "));
    }
  }

  /**
   * A command line that is `DockerRun` followed by some argument words
   * splits back into the `docker run` words and then those arguments,
   * provided the directory, the tag and every argument are single words.
   */
  lemma DockerRunSplits(dataDir: string, tag: string, args: seq<string>)
    requires |args| >= 1 && Word(dataDir) && Word(tag) && AllWords(args)
    ensures Split(Spaced(DockerRun(dataDir, tag), args), ' ') == DockerRunWords(dataDir, tag) + args
  {
    var w := DockerRunWords(dataDir, tag);
    SpacedIsJoin(DockerRun(dataDir, tag), args);
    DockerRunIsWords(dataDir, tag);
    JoinAppend(w, args, " ");
    DockerRunWordsAreWords(dataDir, tag);
    AllWordsAppend(w, args);
    SplitJoin(w + args, ' ');
  }
}
