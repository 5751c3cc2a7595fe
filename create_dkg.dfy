/**
 * `rocketpool obol create-dkg` (rocketpool-cli/obol/create-dkg.go): the
 * cluster creator checks the configuration, collects the member ENRs,
 * reads the node status and the local ENR, and runs Charon's
 * `create dkg --publish` in a one-shot container.
 */
module CreateDkg {
  import opened Wrappers
  import opened GoText
  import opened Config
  import opened Addon
  import opened Host
  import opened CharonUtils

  const NoClusterNameError := "cluster name is not set. Please configure it with 'rocketpool service config'"
  const NoValidatorsError :=
    "number of validators must be greater than 0. Please configure it with 'rocketpool service config'"
  const NoLocalEnrError := "local ENR not found. Please create it first with 'rocketpool obol create-enr'"
  const NoMegapoolError :=
    "megapool is not deployed. Please deploy your megapool first with 'rocketpool megapool deploy'"

  const MissingEnrTail := " is required but not configured. Please configure it with 'rocketpool service config'"

  function MissingEnrError(slot: nat): string {
    "member ENR " + Decimal(slot) + MissingEnrTail
  }

  function InvalidEnrError(slot: nat, e: string): string {
    "member ENR " + Decimal(slot) + " is invalid: " + e
  }

  // ---------------------------------------------------------------------
  // Collecting the member ENRs.

  /** The largest allocation Go's runtime permits on 64-bit Linux, in bytes (2^48). */
  const MaxAlloc: int := 0x1_0000_0000_0000

  /**
   * Whether `make([]string, 0, capacity)` returns rather than panicking: the
   * capacity is not negative and that many 16-byte string headers fit in
   * the largest allocation.
   */
  predicate MakeCapOk(capacity: int) {
    0 <= capacity && capacity * 16 <= MaxAlloc
  }

  /** Why the ENR loop stops: a blank slot, a slot that does not parse, or an index past the last slot. */
  datatype EnrProblem = Missing(slot: nat) | Invalid(slot: nat, error: string) | OutOfRange(index: nat, length: nat)

  /** The error `createDKG` returns for a problem of the ENR loop. */
  function EnrProblemError(p: EnrProblem): CliError {
    match p
    case Missing(slot) => Message(MissingEnrError(slot))
    case Invalid(slot, e) => Message(InvalidEnrError(slot, e))
    case OutOfRange(index, length) => IndexOutOfRange(index, length)
  }

  /** A member ENR slot passes the loop's checks: it is set and it parses. */
  predicate SlotOk(ext: Externals, enr: string) {
    enr != "" && ValidateEnr(ext, enr).Pass?
  }

  /** The problem with slot i + 1 when it fails the loop's checks. */
  function SlotProblem(ext: Externals, enr: string, i: nat): (p: EnrProblem)
    requires !SlotOk(ext, enr)
    ensures !p.OutOfRange? && p.slot == i + 1 && (p.Missing? <==> enr == "")
  {
    if enr == "" then Missing(i + 1) else Invalid(i + 1, ValidateEnr(ext, enr).error)
  }

  /**
   * The ENR loop from index i on: slots i, i+1, ... up to required - 1 are
   * checked in order and collected; reading past the last slot is the
   * index panic.
   */
  function CheckEnrs(ext: Externals, enrs: seq<string>, i: nat, required: int): Result<seq<string>, EnrProblem>
    decreases required - i
  {
    if i >= required then Success([])
    else if i >= |enrs| then Failure(OutOfRange(i, |enrs|))
    else if !SlotOk(ext, enrs[i]) then Failure(SlotProblem(ext, enrs[i], i))
    else match CheckEnrs(ext, enrs, i + 1, required)
      case Success(rest) => Success([enrs[i]] + rest)
      case Failure(e) => Failure(e)
  }

  /** `xs` in front of a successful result; a failure stays as it is. */
  function Prefixed(xs: seq<string>, r: Result<seq<string>, EnrProblem>): Result<seq<string>, EnrProblem> {
    match r
    case Success(rest) => Success(xs + rest)
    case Failure(e) => Failure(e)
  }

  /** A result of the ENR loop with its problem turned into the command's error. */
  function WithError(r: Result<seq<string>, EnrProblem>): Result<seq<string>, CliError> {
    match r
    case Success(enrs) => Success(enrs)
    case Failure(p) => Failure(EnrProblemError(p))
  }

  /** One passing slot: it goes in front of what the rest of the loop collects. */
  lemma CheckEnrsStep(ext: Externals, enrs: seq<string>, i: nat, required: int)
    requires i < required && i < |enrs| && SlotOk(ext, enrs[i])
    ensures CheckEnrs(ext, enrs, i, required) == Prefixed([enrs[i]], CheckEnrs(ext, enrs, i + 1, required))
  {
  }

  lemma PrefixedAppend(xs: seq<string>, ys: seq<string>, r: Result<seq<string>, EnrProblem>)
    ensures Prefixed(xs, Prefixed(ys, r)) == Prefixed(xs + ys, r)
  {
    if r.Success? {
      assert xs + (ys + r.value) == xs + ys + r.value;
    }
  }

  /** The loop of `createDKG` that collects the `required` member ENRs, slot 1 first. */
  method CollectOperatorEnrs(ext: Externals, enrParams: seq<string>, required: int)
    returns (r: Result<seq<string>, CliError>)
    ensures r == WithError(CheckEnrs(ext, enrParams, 0, required))
  {
    var operatorEnrs: seq<string> := [];
    var i := 0;
    PrefixedAppend([], [], CheckEnrs(ext, enrParams, 0, required));
    assert Prefixed([], CheckEnrs(ext, enrParams, 0, required)) == CheckEnrs(ext, enrParams, 0, required) by {
      if CheckEnrs(ext, enrParams, 0, required).Success? {
        assert [] + CheckEnrs(ext, enrParams, 0, required).value == CheckEnrs(ext, enrParams, 0, required).value;
      }
    }
    while i < required
      invariant 0 <= i
      invariant CheckEnrs(ext, enrParams, 0, required) == Prefixed(operatorEnrs, CheckEnrs(ext, enrParams, i, required))
      decreases required - i
    {
      if i >= |enrParams| {
        return Failure(IndexOutOfRange(i, |enrParams|));
      }
      var enr := enrParams[i];
      if enr == "" {
        return Failure(Message(MissingEnrError(i + 1)));
      }
      var valid := ValidateEnr(ext, enr);
      if valid.Fail? {
        return Failure(Message(InvalidEnrError(i + 1, valid.error)));
      }
      CheckEnrsStep(ext, enrParams, i, required);
      PrefixedAppend(operatorEnrs, [enr], CheckEnrs(ext, enrParams, i + 1, required));
      operatorEnrs := operatorEnrs + [enr];
      i := i + 1;
    }
    assert operatorEnrs + [] == operatorEnrs;
    return Success(operatorEnrs);
  }

  /** How many slots the loop asks for: `required` when positive, else none. */
  function Wanted(required: int): nat {
    if required < 0 then 0 else required
  }

  /**
   * The loop succeeds exactly when every slot it asks for exists, is set and
   * parses, and then the collected ENRs are those slots, in order.
   */
  lemma {:induction false} CheckEnrsSucceeds(ext: Externals, enrs: seq<string>, i: nat, required: int)
    requires i <= Wanted(required) || i <= |enrs|
    ensures var r := CheckEnrs(ext, enrs, i, required);
      && (r.Success? <==>
            (i >= required || (required <= |enrs| && forall j :: i <= j < required ==> SlotOk(ext, enrs[j]))))
      && (r.Success? && i < required ==> r.value == enrs[i..required])
      && (r.Success? && i >= required ==> r.value == [])
    decreases required - i
  {
    if i < required && i < |enrs| && SlotOk(ext, enrs[i]) {
      CheckEnrsSucceeds(ext, enrs, i + 1, required);
      if i + 1 < required && CheckEnrs(ext, enrs, i + 1, required).Success? {
        assert enrs[i..required] == [enrs[i]] + enrs[i + 1..required];
      }
      if i + 1 >= required {
        assert enrs[i..required] == [enrs[i]];
      }
    }
  }

  /**
   * The slots are checked in ascending order and the first bad one decides
   * the error: "required but not configured" when it is blank, "invalid"
   * when it does not parse.
   */
  lemma {:induction false} CheckEnrsFirstBad(ext: Externals, enrs: seq<string>, i: nat, required: int, bad: nat)
    requires i <= bad < required && bad < |enrs|
    requires !SlotOk(ext, enrs[bad])
    requires forall j :: i <= j < bad ==> SlotOk(ext, enrs[j])
    ensures CheckEnrs(ext, enrs, i, required) == Failure(SlotProblem(ext, enrs[bad], bad))
    decreases bad - i
  {
    if i < bad {
      CheckEnrsFirstBad(ext, enrs, i + 1, required, bad);
    }
  }

  /**
   * Reading past the last slot (the Go index panic) happens exactly when
   * more slots are asked for than there are and every slot passes.
   */
  lemma {:induction false} CheckEnrsPanics(ext: Externals, enrs: seq<string>, i: nat, required: int)
    requires i <= |enrs|
    ensures CheckEnrs(ext, enrs, i, required).Failure? && CheckEnrs(ext, enrs, i, required).error.OutOfRange?
            <==> required > |enrs| && forall j :: i <= j < |enrs| ==> SlotOk(ext, enrs[j])
    ensures CheckEnrs(ext, enrs, i, required).Failure? && CheckEnrs(ext, enrs, i, required).error.OutOfRange?
            ==> CheckEnrs(ext, enrs, i, required).error == OutOfRange(|enrs|, |enrs|)
    decreases |enrs| - i
  {
    if i < |enrs| && i < required {
      CheckEnrsPanics(ext, enrs, i + 1, required);
    }
  }

  /** Slots at or beyond `required` are never read: changing them changes nothing. */
  lemma {:induction false} CheckEnrsReadsOnlyRequired(ext: Externals, enrs: seq<string>, other: seq<string>, i: nat,
                                                      required: int)
    requires |enrs| == |other|
    requires forall j :: i <= j < required && j < |enrs| ==> enrs[j] == other[j]
    ensures CheckEnrs(ext, enrs, i, required) == CheckEnrs(ext, other, i, required)
    decreases required - i
  {
    if i < required && i < |enrs| {
      CheckEnrsReadsOnlyRequired(ext, enrs, other, i + 1, required);
    }
  }

  // ---------------------------------------------------------------------
  // The configuration checks.

  /** What the configuration checks hand on to the rest of `createDKG`. */
  datatype DkgSettings = DkgSettings(dataDir: string, clusterName: string, numValidators: uint64,
                                     numOperators: int, memberEnrs: seq<string>)

  /**
   * The checks `createDKG` makes on the loaded configuration, in the
   * source's order, before it asks the node for anything: cluster name,
   * validator count, operator count, the private-key file, the capacity
   * of the ENR list, then the member ENRs.
   */
  function ConfigChecks(ext: Externals, cfg: RocketPoolConfig): Result<DkgSettings, CliError>
    requires WellTyped(cfg.obol.cfg)
  {
    var c := GetConfig(cfg.obol);
    var clusterName := ClusterNameOf(c);
    var numOperatorsText := NumOperatorsOf(c);
    if clusterName == "" then Failure(Message(NoClusterNameError))
    else if NumValidatorsOf(c) == 0 then Failure(Message(NoValidatorsError))
    else match Atoi(numOperatorsText)
      case None => Failure(Message("invalid number of operators: " + ext.atoiError(numOperatorsText)))
      case Some(n) =>
        var dataDir := DataDir(cfg);
        if ext.stat(EnrKeyPath(dataDir)).NotExist? then Failure(Message(NoLocalEnrError))
        else if !MakeCapOk(Pred64(n)) then Failure(CapOutOfRange(Pred64(n)))
        else match CheckEnrs(ext, OperatorEnrsOf(c), 0, Pred64(n))
          case Failure(p) => Failure(EnrProblemError(p))
          case Success(members) => Success(DkgSettings(dataDir, clusterName, NumValidatorsOf(c), n, members))
  }

  /**
   * The checks run in a fixed order and the first failure decides the
   * error: a blank name is reported even when the validator count, the
   * operator count and every ENR slot are wrong as well.
   */
  lemma ConfigChecksOrder(ext: Externals, cfg: RocketPoolConfig)
    requires WellTyped(cfg.obol.cfg)
    ensures var c := cfg.obol.cfg;
      var r := ConfigChecks(ext, cfg);
      && (ClusterNameOf(c) == "" ==> r == Failure(Message(NoClusterNameError)))
      && (ClusterNameOf(c) != "" && NumValidatorsOf(c) == 0 ==> r == Failure(Message(NoValidatorsError)))
      && (ClusterNameOf(c) != "" && NumValidatorsOf(c) > 0 && Atoi(NumOperatorsOf(c)).None? ==>
            r == Failure(Message("invalid number of operators: " + ext.atoiError(NumOperatorsOf(c)))))
      && (ClusterNameOf(c) != "" && NumValidatorsOf(c) > 0 && Atoi(NumOperatorsOf(c)).Some?
          && ext.stat(EnrKeyPath(DataDir(cfg))).NotExist? ==>
            r == Failure(Message(NoLocalEnrError)))
      && (ClusterNameOf(c) != "" && NumValidatorsOf(c) > 0 && Atoi(NumOperatorsOf(c)).Some?
          && !ext.stat(EnrKeyPath(DataDir(cfg))).NotExist? && !MakeCapOk(Pred64(Atoi(NumOperatorsOf(c)).value)) ==>
            r == Failure(CapOutOfRange(Pred64(Atoi(NumOperatorsOf(c)).value))))
      && (ClusterNameOf(c) != "" && NumValidatorsOf(c) > 0 && Atoi(NumOperatorsOf(c)).Some?
          && !ext.stat(EnrKeyPath(DataDir(cfg))).NotExist? && MakeCapOk(Pred64(Atoi(NumOperatorsOf(c)).value)) ==>
            var enrs := CheckEnrs(ext, OperatorEnrsOf(c), 0, Pred64(Atoi(NumOperatorsOf(c)).value));
            && (r.Failure? <==> enrs.Failure?)
            && (r.Failure? ==> r.error == EnrProblemError(enrs.error)))
  {
  }

  /**
   * The configuration checks pass exactly when the name is set, there is at
   * least one validator, the operator count parses as some n from 1 to 10,
   * the key file is not reported missing, and slots 1 to n - 1 are set and
   * parse; the settings then carry those n - 1 ENRs in slot order.
   */
  lemma ConfigChecksPass(ext: Externals, cfg: RocketPoolConfig)
    requires WellTyped(cfg.obol.cfg)
    ensures var c := cfg.obol.cfg;
      var r := ConfigChecks(ext, cfg);
      && (r.Success? <==>
            && ClusterNameOf(c) != ""
            && NumValidatorsOf(c) > 0
            && Atoi(NumOperatorsOf(c)).Some?
            && 1 <= Atoi(NumOperatorsOf(c)).value <= EnrSlots + 1
            && !ext.stat(EnrKeyPath(DataDir(cfg))).NotExist?
            && forall j :: 0 <= j < Atoi(NumOperatorsOf(c)).value - 1 ==> SlotOk(ext, OperatorEnrsOf(c)[j]))
      && (r.Success? ==>
            && r.value.numOperators == Atoi(NumOperatorsOf(c)).value
            && r.value.memberEnrs == OperatorEnrsOf(c)[..r.value.numOperators - 1]
            && r.value.dataDir == DataDir(cfg))
  {
    var c := cfg.obol.cfg;
    if ClusterNameOf(c) != "" && NumValidatorsOf(c) > 0 && Atoi(NumOperatorsOf(c)).Some? {
      var required := Pred64(Atoi(NumOperatorsOf(c)).value);
      CheckEnrsSucceeds(ext, OperatorEnrsOf(c), 0, required);
    }
  }

  /**
   * The checks panic only for an operator count outside 1 to 10: `make`
   * panics when the count is below one (its n - 1 capacity is negative, or
   * wraps round) or too large to allocate, and the loop reads past the nine
   * slots only when the count is above ten.
   */
  lemma ConfigChecksNoPanic(ext: Externals, cfg: RocketPoolConfig)
    requires WellTyped(cfg.obol.cfg)
    ensures var c := cfg.obol.cfg;
      var r := ConfigChecks(ext, cfg);
      && (r.Failure? && r.error.IndexOutOfRange? ==>
            Atoi(NumOperatorsOf(c)).Some? && Atoi(NumOperatorsOf(c)).value > EnrSlots + 1)
      && (r.Failure? && r.error.CapOutOfRange? ==>
            && Atoi(NumOperatorsOf(c)).Some?
            && (Atoi(NumOperatorsOf(c)).value < 1 || (Atoi(NumOperatorsOf(c)).value - 1) * 16 > MaxAlloc))
  {
    var c := cfg.obol.cfg;
    if ClusterNameOf(c) != "" && NumValidatorsOf(c) > 0 && Atoi(NumOperatorsOf(c)).Some? {
      CheckEnrsPanics(ext, OperatorEnrsOf(c), 0, Pred64(Atoi(NumOperatorsOf(c)).value));
    }
  }

  // ---------------------------------------------------------------------
  // The cluster request and the command line.

  /** The fee recipient: the smoothing pool when the node is in it, else its fee distributor. */
  function FeeRecipient(info: FeeRecipientInfo): (address: string)
    ensures info.isInSmoothingPool ==> address == info.smoothingPoolAddress
    ensures !info.isInSmoothingPool ==> address == info.feeDistributorAddress
  {
    if info.isInSmoothingPool then info.smoothingPoolAddress else info.feeDistributorAddress
  }

  /** The operators of the cluster: the local node first, then the members in slot order. */
  function OperatorList(localEnr: string, members: seq<string>): (enrs: seq<string>)
    ensures |enrs| == |members| + 1 && enrs[0] == localEnr && enrs[1..] == members
  {
    [localEnr] + members
  }

  /** The `--operator-enrs` value: the operators joined with commas. */
  function OperatorEnrsArgument(enrs: seq<string>): string {
    Join(enrs, ",")
  }

  /** The joined operator list splits back into the same ENRs, none of which holds a comma. */
  lemma OperatorEnrsArgumentSplits(enrs: seq<string>)
    requires |enrs| >= 1 && forall k :: 0 <= k < |enrs| ==> ',' !in enrs[k]
    ensures Split(OperatorEnrsArgument(enrs), ',') == enrs
  {
    SplitJoin(enrs, ',');
  }

  /** The inputs of one `charon create dkg` run. */
  datatype DkgRequest = DkgRequest(dataDir: string, tag: string, clusterName: string, numValidators: uint64,
                                   withdrawalAddress: string, feeRecipient: string, operatorEnrs: seq<string>,
                                   network: string)

  /** The words after the `docker run` prefix, each value quoted where the source quotes it. */
  function CreateDkgArguments(ext: Externals, req: DkgRequest): seq<string> {
    ["create", "dkg",
     "--name=" + ext.quote(req.clusterName),
     "--num-validators=" + Decimal(req.numValidators as nat),
     "--withdrawal-addresses=" + ext.quote(req.withdrawalAddress),
     "--fee-recipient-addresses=" + ext.quote(req.feeRecipient),
     "--operator-enrs=" + ext.quote(OperatorEnrsArgument(req.operatorEnrs)),
     "--network=" + req.network,
     "--publish"]
  }

  /** The `docker run … create dkg …` command line. */
  function CreateDkgCommand(ext: Externals, req: DkgRequest): string {
    Spaced(DockerRun(req.dataDir, req.tag), CreateDkgArguments(ext, req))
  }

  /**
   * When the directory, the tag, the network and the quoted values hold no
   * space, the command line splits into the `docker run` words followed by
   * exactly the arguments above: every value is one argument.
   */
  lemma CreateDkgCommandWords(ext: Externals, req: DkgRequest)
    requires Word(req.dataDir) && Word(req.tag) && Word(req.network)
    requires Word(ext.quote(req.clusterName)) && Word(ext.quote(req.withdrawalAddress))
    requires Word(ext.quote(req.feeRecipient)) && Word(ext.quote(OperatorEnrsArgument(req.operatorEnrs)))
    ensures Split(CreateDkgCommand(ext, req), ' ') == DockerRunWords(req.dataDir, req.tag) + CreateDkgArguments(ext, req)
  {
    ArgumentsAreWords(ext, req);
    DockerRunSplits(req.dataDir, req.tag, CreateDkgArguments(ext, req));
  }

  lemma ArgumentsAreWords(ext: Externals, req: DkgRequest)
    requires Word(req.network)
    requires Word(ext.quote(req.clusterName)) && Word(ext.quote(req.withdrawalAddress))
    requires Word(ext.quote(req.feeRecipient)) && Word(ext.quote(OperatorEnrsArgument(req.operatorEnrs)))
    ensures AllWords(CreateDkgArguments(ext, req))
  {
    var args := CreateDkgArguments(ext, req);
    forall k | 0 <= k < |args| ensures Word(args[k]) {
      WordAfterFlag(k, args[k], ext, req);
    }
  }

  /** A flag glued to a word is a word. */
  lemma WordConcat(a: string, b: string)
    requires Word(a) && Word(b)
    ensures Word(a + b)
  {
    assert forall j :: 0 <= j < |a| + |b| ==> (a + b)[j] == if j < |a| then a[j] else b[j - |a|];
  }

  lemma WordAfterFlag(k: nat, arg: string, ext: Externals, req: DkgRequest)
    requires k < 9 && arg == CreateDkgArguments(ext, req)[k]
    requires Word(req.network)
    requires Word(ext.quote(req.clusterName)) && Word(ext.quote(req.withdrawalAddress))
    requires Word(ext.quote(req.feeRecipient)) && Word(ext.quote(OperatorEnrsArgument(req.operatorEnrs)))
    ensures Word(arg)
  {
    var digits := Decimal(req.numValidators as nat);
    assert Word(digits) by {
      assert forall j :: 0 <= j < |digits| ==> IsDigit(digits[j]);
    }
    if k == 2 { WordConcat("--name=", ext.quote(req.clusterName)); }
    else if k == 3 { WordConcat("--num-validators=", digits); }
    else if k == 4 { WordConcat("--withdrawal-addresses=", ext.quote(req.withdrawalAddress)); }
    else if k == 5 { WordConcat("--fee-recipient-addresses=", ext.quote(req.feeRecipient)); }
    else if k == 6 { WordConcat("--operator-enrs=", ext.quote(OperatorEnrsArgument(req.operatorEnrs))); }
    else if k == 7 { WordConcat("--network=", req.network); }
  }

  // ---------------------------------------------------------------------
  // The whole subcommand.

  /** The request `createDKG` builds once the node status and the local ENR are known. */
  function BuildRequest(cfg: RocketPoolConfig, settings: DkgSettings, status: NodeStatus, localEnr: string): DkgRequest
    requires WellTyped(cfg.obol.cfg)
  {
    DkgRequest(settings.dataDir, GetContainerTag(cfg.obol), settings.clusterName, settings.numValidators,
               status.megapoolAddress, FeeRecipient(status.feeRecipientInfo),
               OperatorList(localEnr, settings.memberEnrs), CharonNetwork(cfg.network))
  }

  /** The last part of `createDKG`: read and check the local ENR, then run Charon. */
  function PublishRun(services: Services, ext: Externals, cfg: RocketPoolConfig, settings: DkgSettings,
                      status: NodeStatus, prefix: string): Run
    requires WellTyped(cfg.obol.cfg)
  {
    LaunchRun(services, ext, cfg, settings, status,
              LocalEnrRead(services, GetContainerTag(cfg.obol), settings.dataDir, FullContainerName(prefix, cfg.obol)))
  }

  /** What `createDKG` does once the local ENR has been read: check it, then run Charon. */
  function LaunchRun(services: Services, ext: Externals, cfg: RocketPoolConfig, settings: DkgSettings,
                     status: NodeStatus, read: EnrRead): Run
    requires WellTyped(cfg.obol.cfg)
  {
    match read.result
    case Failure(e) => Run(Fail(Message("error reading local ENR: " + e)), read.calls)
    case Success(localEnr) =>
      match ValidateEnr(ext, localEnr)
      case Fail(e) => Run(Fail(Message("local ENR is invalid: " + e)), read.calls)
      case Pass =>
        StreamedRun(services, read.calls, CreateDkgCommand(ext, BuildRequest(cfg, settings, status, localEnr)),
                    "error creating cluster: ")
  }

  /**
   * The part of `createDKG` after the configuration checks: the node
   * status, the megapool check and the container prefix, then the rest.
   */
  function ClusterRun(services: Services, ext: Externals, cfg: RocketPoolConfig, settings: DkgSettings): Run
    requires WellTyped(cfg.obol.cfg)
  {
    match services.nodeStatus
    case Failure(e) => Run(Fail(Message("error getting node status: " + e)), [NodeStatusCall])
    case Success(status) =>
      if !status.megapoolDeployed then Run(Fail(Message(NoMegapoolError)), [NodeStatusCall])
      else
        match services.containerPrefix
        case Failure(e) => Run(Fail(Message("error getting container prefix: " + e)), [NodeStatusCall, ContainerPrefixCall])
        case Success(prefix) =>
          var rest := PublishRun(services, ext, cfg, settings, status, prefix);
          Run(rest.outcome, [NodeStatusCall, ContainerPrefixCall] + rest.calls)
  }

  /** `createDKG` as a function of the client's answers and the externals. */
  function CreateDkgRun(services: Services, ext: Externals): Run
    requires Loadable(services)
  {
    match services.config
    case Failure(e) => Run(Fail(LoadError(e)), [LoadConfigCall])
    case Success(cfg) =>
      if !IsEnabled(GetConfig(cfg.obol)) then Run(Fail(Message(DisabledError)), [LoadConfigCall])
      else match ConfigChecks(ext, cfg)
        case Failure(e) => Run(Fail(e), [LoadConfigCall])
        case Success(settings) =>
          var rest := ClusterRun(services, ext, cfg, settings);
          Run(rest.outcome, [LoadConfigCall] + rest.calls)
  }

  /** `createDKG`, making its calls through the client. */
  method CreateDkgCommandRun(client: Client, ext: Externals) returns (r: Outcome<CliError>)
    requires Loadable(client.services)
    modifies client`log
    ensures r == CreateDkgRun(client.services, ext).outcome
    ensures client.log == old(client.log) + CreateDkgRun(client.services, ext).calls
  {
    var loaded := client.LoadConfig();
    if loaded.Failure? {
      return Fail(LoadError(loaded.error));
    }
    var cfg := loaded.value;
    if !GetEnabledParameter(cfg.obol).value.b {
      return Fail(Message(DisabledError));
    }
    var checked := CheckConfiguration(ext, cfg);
    if checked.Failure? {
      return Fail(checked.error);
    }
    r := RequestCluster(client, ext, cfg, checked.value);
    LogAppend(old(client.log), [LoadConfigCall], ClusterRun(client.services, ext, cfg, checked.value).calls);
  }

  /** The configuration checks of `createDKG`, the member ENR loop among them. */
  method CheckConfiguration(ext: Externals, cfg: RocketPoolConfig) returns (r: Result<DkgSettings, CliError>)
    requires WellTyped(cfg.obol.cfg)
    ensures r == ConfigChecks(ext, cfg)
  {
    var obolCfg := GetConfig(cfg.obol);
    var clusterName := ClusterNameOf(obolCfg);
    if clusterName == "" {
      return Failure(Message(NoClusterNameError));
    }
    var numValidators := NumValidatorsOf(obolCfg);
    if numValidators == 0 {
      return Failure(Message(NoValidatorsError));
    }
    var numOperatorsText := NumOperatorsOf(obolCfg);
    var parsed := Atoi(numOperatorsText);
    if parsed.None? {
      return Failure(Message("invalid number of operators: " + ext.atoiError(numOperatorsText)));
    }
    var numOperators := parsed.value;
    var obolDataDir := DataDir(cfg);
    if ext.stat(EnrKeyPath(obolDataDir)).NotExist? {
      return Failure(Message(NoLocalEnrError));
    }
    var requiredEnrs := Pred64(numOperators);
    if !MakeCapOk(requiredEnrs) {
      return Failure(CapOutOfRange(requiredEnrs));
    }
    var operatorEnrs := CollectOperatorEnrs(ext, OperatorEnrsOf(obolCfg), requiredEnrs);
    if operatorEnrs.Failure? {
      return Failure(operatorEnrs.error);
    }
    return Success(DkgSettings(obolDataDir, clusterName, numValidators, numOperators, operatorEnrs.value));
  }

  /** Node status, megapool check, fee recipient and container prefix, through the client; then the rest. */
  method RequestCluster(client: Client, ext: Externals, cfg: RocketPoolConfig, settings: DkgSettings)
    returns (r: Outcome<CliError>)
    requires WellTyped(cfg.obol.cfg)
    modifies client`log
    ensures r == ClusterRun(client.services, ext, cfg, settings).outcome
    ensures client.log == old(client.log) + ClusterRun(client.services, ext, cfg, settings).calls
  {
    var nodeStatus := client.NodeStatus();
    if nodeStatus.Failure? {
      return Fail(Message("error getting node status: " + nodeStatus.error));
    }
    var status := nodeStatus.value;
    if !status.megapoolDeployed {
      return Fail(Message(NoMegapoolError));
    }
    var feeRecipientAddress: string;
    if status.feeRecipientInfo.isInSmoothingPool {
      feeRecipientAddress := status.feeRecipientInfo.smoothingPoolAddress;
    } else {
      feeRecipientAddress := status.feeRecipientInfo.feeDistributorAddress;
    }
    var prefix := client.GetContainerPrefix();
    if prefix.Failure? {
      return Fail(Message("error getting container prefix: " + prefix.error));
    }
    assert client.log == old(client.log) + [NodeStatusCall, ContainerPrefixCall];
    r := Publish(client, ext, cfg, settings, status, feeRecipientAddress, prefix.value);
    LogAppend(old(client.log), [NodeStatusCall, ContainerPrefixCall],
              PublishRun(client.services, ext, cfg, settings, status, prefix.value).calls);
  }

  /** The local ENR through the client, its check, and the Charon run. */
  method Publish(client: Client, ext: Externals, cfg: RocketPoolConfig, settings: DkgSettings, status: NodeStatus,
                 feeRecipientAddress: string, prefix: string)
    returns (r: Outcome<CliError>)
    requires WellTyped(cfg.obol.cfg) && feeRecipientAddress == FeeRecipient(status.feeRecipientInfo)
    modifies client`log
    ensures r == PublishRun(client.services, ext, cfg, settings, status, prefix).outcome
    ensures client.log == old(client.log) + PublishRun(client.services, ext, cfg, settings, status, prefix).calls
  {
    var containerTag := GetContainerTag(cfg.obol);
    var fullContainerName := FullContainerName(prefix, cfg.obol);
    var localEnr := GetLocalEnr(client, containerTag, settings.dataDir, fullContainerName);
    if localEnr.Failure? {
      return Fail(Message("error reading local ENR: " + localEnr.error));
    }
    var localValid := ValidateEnr(ext, localEnr.value);
    if localValid.Fail? {
      return Fail(Message("local ENR is invalid: " + localValid.error));
    }
    var allOperatorEnrs := [localEnr.value] + settings.memberEnrs;
    var request := DkgRequest(settings.dataDir, containerTag, settings.clusterName, settings.numValidators,
                              status.megapoolAddress, feeRecipientAddress, allOperatorEnrs, CharonNetwork(cfg.network));
    assert request == BuildRequest(cfg, settings, status, localEnr.value);
    var cmd := CreateDkgCommand(ext, request);
    var ran := client.RunDockerCommand(cmd);
    if ran.Fail? {
      return Fail(Message("error creating cluster: " + ran.error));
    }
    return Pass;
  }

  // ---------------------------------------------------------------------
  // What `createDKG` does, as a whole.

  /**
   * A configuration that cannot be loaded, or an add-on that is disabled,
   * ends the command at once: the disabled check comes before every other
   * check, and nothing but the load is asked of the client.
   */
  lemma CreateDkgGuards(services: Services, ext: Externals)
    requires Loadable(services)
    ensures services.config.Failure? ==>
              CreateDkgRun(services, ext) == Run(Fail(LoadError(services.config.error)), [LoadConfigCall])
    ensures services.config.Success? && !IsEnabled(services.config.value.obol.cfg) ==>
              CreateDkgRun(services, ext) == Run(Fail(Message(DisabledError)), [LoadConfigCall])
  {
  }

  /**
   * The node is asked for nothing, and no command is run, unless every
   * configuration check has passed: the load is then the only call, and a
   * failed check is the command's error.
   */
  lemma CreateDkgChecksComeFirst(services: Services, ext: Externals)
    requires Loadable(services)
    ensures var run := CreateDkgRun(services, ext);
      && |run.calls| >= 1 && run.calls[0] == LoadConfigCall
      && (|run.calls| == 1 <==>
            || services.config.Failure?
            || !IsEnabled(services.config.value.obol.cfg)
            || ConfigChecks(ext, services.config.value).Failure?)
      && (|run.calls| > 1 ==> run.calls[1] == NodeStatusCall)
      && (services.config.Success? && IsEnabled(services.config.value.obol.cfg)
          && ConfigChecks(ext, services.config.value).Failure? ==>
            run.outcome == Fail(ConfigChecks(ext, services.config.value).error))
  {
  }

  /** The order of the remaining guards: each decides the outcome once the ones before it have passed. */
  lemma ClusterRunOrder(services: Services, ext: Externals, cfg: RocketPoolConfig, settings: DkgSettings)
    requires WellTyped(cfg.obol.cfg)
    ensures var run := ClusterRun(services, ext, cfg, settings);
      && (services.nodeStatus.Failure? ==>
            run == Run(Fail(Message("error getting node status: " + services.nodeStatus.error)), [NodeStatusCall]))
      && (services.nodeStatus.Success? && !services.nodeStatus.value.megapoolDeployed ==>
            run == Run(Fail(Message(NoMegapoolError)), [NodeStatusCall]))
      && (services.nodeStatus.Success? && services.nodeStatus.value.megapoolDeployed
          && services.containerPrefix.Failure? ==>
            run == Run(Fail(Message("error getting container prefix: " + services.containerPrefix.error)),
                       [NodeStatusCall, ContainerPrefixCall]))
      && (services.nodeStatus.Success? && services.nodeStatus.value.megapoolDeployed
          && services.containerPrefix.Success? ==>
            var read := LocalEnrRead(services, GetContainerTag(cfg.obol), settings.dataDir,
                                     FullContainerName(services.containerPrefix.value, cfg.obol));
            && (read.result.Failure? ==>
                  run == Run(Fail(Message("error reading local ENR: " + read.result.error)),
                             [NodeStatusCall, ContainerPrefixCall] + read.calls))
            && (read.result.Success? && ValidateEnr(ext, read.result.value).Fail? ==>
                  run == Run(Fail(Message("local ENR is invalid: " + ValidateEnr(ext, read.result.value).error)),
                             [NodeStatusCall, ContainerPrefixCall] + read.calls)))
  {
  }

  /**
   * At most one command is streamed, and only as the very last call; a
   * successful run always ends with it.
   */
  lemma CreateDkgCallsShape(services: Services, ext: Externals)
    requires Loadable(services)
    ensures var run := CreateDkgRun(services, ext);
      && 1 <= |run.calls| <= 6
      && StreamsOnlyLast(run.calls)
      && (run.outcome.Pass? ==> run.calls[|run.calls| - 1].Streamed?)
  {
    if services.config.Success? && IsEnabled(services.config.value.obol.cfg)
       && ConfigChecks(ext, services.config.value).Success? {
      var cfg := services.config.value;
      var settings := ConfigChecks(ext, cfg).value;
      ClusterRunShape(services, ext, cfg, settings);
      StreamsOnlyLastAfter([LoadConfigCall], ClusterRun(services, ext, cfg, settings).calls);
    }
  }

  lemma ClusterRunShape(services: Services, ext: Externals, cfg: RocketPoolConfig, settings: DkgSettings)
    requires WellTyped(cfg.obol.cfg)
    ensures var run := ClusterRun(services, ext, cfg, settings);
      && 1 <= |run.calls| <= 5 && run.calls[0] == NodeStatusCall
      && StreamsOnlyLast(run.calls)
      && (run.outcome.Pass? ==> run.calls[|run.calls| - 1].Streamed?)
  {
    if services.nodeStatus.Success? && services.nodeStatus.value.megapoolDeployed && services.containerPrefix.Success? {
      var status := services.nodeStatus.value;
      var prefix := services.containerPrefix.value;
      var rest := PublishRun(services, ext, cfg, settings, status, prefix);
      PublishRunShape(services, ext, cfg, settings, status, prefix);
      StreamsOnlyLastAfter([NodeStatusCall, ContainerPrefixCall], rest.calls);
      assert ClusterRun(services, ext, cfg, settings) == Run(rest.outcome, [NodeStatusCall, ContainerPrefixCall] + rest.calls);
    }
  }

  lemma PublishRunShape(services: Services, ext: Externals, cfg: RocketPoolConfig, settings: DkgSettings,
                        status: NodeStatus, prefix: string)
    requires WellTyped(cfg.obol.cfg)
    ensures var run := PublishRun(services, ext, cfg, settings, status, prefix);
      && 1 <= |run.calls| <= 3
      && StreamsOnlyLast(run.calls)
      && (run.outcome.Pass? ==> run.calls[|run.calls| - 1].Streamed?)
  {
    var read := LocalEnrRead(services, GetContainerTag(cfg.obol), settings.dataDir, FullContainerName(prefix, cfg.obol));
    LocalEnrCaptures(services, GetContainerTag(cfg.obol), settings.dataDir, FullContainerName(prefix, cfg.obol));
    LaunchRunShape(services, ext, cfg, settings, status, read);
  }

  lemma LaunchRunShape(services: Services, ext: Externals, cfg: RocketPoolConfig, settings: DkgSettings,
                       status: NodeStatus, read: EnrRead)
    requires WellTyped(cfg.obol.cfg)
    requires 1 <= |read.calls| <= 2 && forall j :: 0 <= j < |read.calls| ==> read.calls[j].Captured?
    ensures var run := LaunchRun(services, ext, cfg, settings, status, read);
      && 1 <= |run.calls| <= 3
      && StreamsOnlyLast(run.calls)
      && (run.outcome.Pass? ==> run.calls[|run.calls| - 1].Streamed?)
  {
  }

  /**
   * The command `createDKG` streams, when it gets that far: every check has
   * passed, and the request carries the configured directory, tag, name and
   * validator count, the megapool as withdrawal address, the fee recipient,
   * the local ENR followed by the member ENRs, and the Charon network.
   */
  lemma CreateDkgCommandSent(services: Services, ext: Externals)
    requires Loadable(services)
    ensures var run := CreateDkgRun(services, ext);
      |run.calls| >= 1 && run.calls[|run.calls| - 1].Streamed? ==>
        && services.config.Success? && IsEnabled(services.config.value.obol.cfg)
        && ConfigChecks(ext, services.config.value).Success?
        && services.nodeStatus.Success? && services.nodeStatus.value.megapoolDeployed
        && services.containerPrefix.Success?
        && var cfg := services.config.value;
           var c := cfg.obol.cfg;
           var status := services.nodeStatus.value;
           var read := LocalEnrRead(services, ContainerTagOf(c), DataDir(cfg), services.containerPrefix.value + "_addon_charon");
           && read.result.Success? && ext.parseEnr(read.result.value).Pass?
           && run.calls[|run.calls| - 1] == Streamed(CreateDkgCommand(ext, DkgRequest(
                DataDir(cfg), ContainerTagOf(c), ClusterNameOf(c), NumValidatorsOf(c),
                status.megapoolAddress, FeeRecipient(status.feeRecipientInfo),
                [read.result.value] + ConfigChecks(ext, cfg).value.memberEnrs, CharonNetwork(cfg.network))))
  {
    var run := CreateDkgRun(services, ext);
    if services.config.Success? && IsEnabled(services.config.value.obol.cfg)
       && ConfigChecks(ext, services.config.value).Success? {
      var cfg := services.config.value;
      var settings := ConfigChecks(ext, cfg).value;
      assert settings.dataDir == DataDir(cfg) && settings.clusterName == ClusterNameOf(cfg.obol.cfg)
             && settings.numValidators == NumValidatorsOf(cfg.obol.cfg);
      var rest := ClusterRun(services, ext, cfg, settings);
      ClusterRunShape(services, ext, cfg, settings);
      ClusterRunSends(services, ext, cfg, settings);
      assert run.calls == [LoadConfigCall] + rest.calls;
      assert run.calls[|run.calls| - 1] == rest.calls[|rest.calls| - 1];
    }
  }
  /**
   * Once every check has passed and the local ENR has been read and
   * parses, `createDKG` streams the create dkg command as its last call,
   * and its outcome is that command's: success when it succeeds, otherwise
   * its error behind "error creating cluster: ".
   */
  lemma CreateDkgRunsCommandOnceChecksPass(services: Services, ext: Externals)
    requires Loadable(services)
    requires services.config.Success? && IsEnabled(services.config.value.obol.cfg)
    requires ConfigChecks(ext, services.config.value).Success?
    requires services.nodeStatus.Success? && services.nodeStatus.value.megapoolDeployed
    requires services.containerPrefix.Success?
    ensures var run := CreateDkgRun(services, ext);
      var cfg := services.config.value;
      var settings := ConfigChecks(ext, cfg).value;
      var status := services.nodeStatus.value;
      var read := LocalEnrRead(services, GetContainerTag(cfg.obol), settings.dataDir,
                               FullContainerName(services.containerPrefix.value, cfg.obol));
      read.result.Success? && ext.parseEnr(read.result.value).Pass? ==>
        var cmd := CreateDkgCommand(ext, BuildRequest(cfg, settings, status, read.result.value));
        && run.calls == [LoadConfigCall, NodeStatusCall, ContainerPrefixCall] + read.calls + [Streamed(cmd)]
        && (run.outcome.Pass? <==> services.streamed(cmd).Pass?)
        && (run.outcome.Fail? ==> run.outcome.error == Message("error creating cluster: " + services.streamed(cmd).error))
  {
  }


  lemma ClusterRunSends(services: Services, ext: Externals, cfg: RocketPoolConfig, settings: DkgSettings)
    requires WellTyped(cfg.obol.cfg)
    ensures var run := ClusterRun(services, ext, cfg, settings);
      |run.calls| >= 1 && run.calls[|run.calls| - 1].Streamed? ==>
        && services.nodeStatus.Success? && services.nodeStatus.value.megapoolDeployed
        && services.containerPrefix.Success?
        && var read := LocalEnrRead(services, GetContainerTag(cfg.obol), settings.dataDir,
                                    FullContainerName(services.containerPrefix.value, cfg.obol));
           && read.result.Success? && ext.parseEnr(read.result.value).Pass?
           && run.calls[|run.calls| - 1]
              == Streamed(CreateDkgCommand(ext, BuildRequest(cfg, settings, services.nodeStatus.value, read.result.value)))
  {
    if services.nodeStatus.Success? && services.nodeStatus.value.megapoolDeployed && services.containerPrefix.Success? {
      var status := services.nodeStatus.value;
      var prefix := services.containerPrefix.value;
      var read := LocalEnrRead(services, GetContainerTag(cfg.obol), settings.dataDir, FullContainerName(prefix, cfg.obol));
      var last := LaunchRun(services, ext, cfg, settings, status, read);
      LocalEnrCaptures(services, GetContainerTag(cfg.obol), settings.dataDir, FullContainerName(prefix, cfg.obol));
      LaunchRunShape(services, ext, cfg, settings, status, read);
      LaunchRunSends(services, ext, cfg, settings, status, read);
      assert ClusterRun(services, ext, cfg, settings).calls == [NodeStatusCall, ContainerPrefixCall] + last.calls;
    }
  }

  lemma LaunchRunSends(services: Services, ext: Externals, cfg: RocketPoolConfig, settings: DkgSettings,
                       status: NodeStatus, read: EnrRead)
    requires WellTyped(cfg.obol.cfg)
    requires 1 <= |read.calls| <= 2 && forall j :: 0 <= j < |read.calls| ==> read.calls[j].Captured?
    ensures var run := LaunchRun(services, ext, cfg, settings, status, read);
      run.calls[|run.calls| - 1].Streamed? ==>
        && read.result.Success? && ext.parseEnr(read.result.value).Pass?
        && run.calls[|run.calls| - 1] == Streamed(CreateDkgCommand(ext, BuildRequest(cfg, settings, status, read.result.value)))
  {
    LaunchRunShape(services, ext, cfg, settings, status, read);
  }

  /**
   * What the configuration checks hand on about the operators: the count
   * n parsed from the setting is between one and ten, and the member ENRs
   * are the first n - 1 slots, so that with the local ENR in front the
   * cluster has exactly n operators.
   */
  lemma ConfigChecksOperators(ext: Externals, cfg: RocketPoolConfig)
    requires WellTyped(cfg.obol.cfg)
    ensures var r := ConfigChecks(ext, cfg);
      r.Success? ==>
        var n := r.value.numOperators;
        && Atoi(NumOperatorsOf(cfg.obol.cfg)) == Some(n)
        && 1 <= n <= EnrSlots + 1
        && |r.value.memberEnrs| == n - 1
        && r.value.memberEnrs == OperatorEnrsOf(cfg.obol.cfg)[..n - 1]
        && |OperatorList("", r.value.memberEnrs)| == n
  {
    ConfigChecksPass(ext, cfg);
  }

  /**
   * `createDKG` reads the node status for the megapool check, the
   * megapool address and the fee recipient only: two statuses that agree
   * on those give the same run.
   */
  lemma CreateDkgReadsStatusFacts(services: Services, ext: Externals, status: NodeStatus)
    requires Loadable(services) && services.nodeStatus.Success?
    requires status.megapoolDeployed == services.nodeStatus.value.megapoolDeployed
    requires status.megapoolAddress == services.nodeStatus.value.megapoolAddress
    requires FeeRecipient(status.feeRecipientInfo) == FeeRecipient(services.nodeStatus.value.feeRecipientInfo)
    ensures CreateDkgRun(services.(nodeStatus := Success(status)), ext) == CreateDkgRun(services, ext)
  {
    if services.config.Success? && IsEnabled(services.config.value.obol.cfg)
       && ConfigChecks(ext, services.config.value).Success? {
      ClusterRunReadsStatusFacts(services, ext, services.config.value, ConfigChecks(ext, services.config.value).value,
                                 status);
    }
  }

  lemma ClusterRunReadsStatusFacts(services: Services, ext: Externals, cfg: RocketPoolConfig, settings: DkgSettings,
                                   status: NodeStatus)
    requires WellTyped(cfg.obol.cfg) && services.nodeStatus.Success?
    requires status.megapoolDeployed == services.nodeStatus.value.megapoolDeployed
    requires status.megapoolAddress == services.nodeStatus.value.megapoolAddress
    requires FeeRecipient(status.feeRecipientInfo) == FeeRecipient(services.nodeStatus.value.feeRecipientInfo)
    ensures ClusterRun(services.(nodeStatus := Success(status)), ext, cfg, settings) == ClusterRun(services, ext, cfg, settings)
  {
    var other := services.(nodeStatus := Success(status));
    if status.megapoolDeployed && services.containerPrefix.Success? {
      var prefix := services.containerPrefix.value;
      var read := LocalEnrRead(services, GetContainerTag(cfg.obol), settings.dataDir, FullContainerName(prefix, cfg.obol));
      assert LocalEnrRead(other, GetContainerTag(cfg.obol), settings.dataDir, FullContainerName(prefix, cfg.obol)) == read;
      LaunchRunReadsStatusFacts(services, other, ext, cfg, settings, services.nodeStatus.value, status, read);
    }
  }

  lemma LaunchRunReadsStatusFacts(services: Services, other: Services, ext: Externals, cfg: RocketPoolConfig,
                                  settings: DkgSettings, status: NodeStatus, status': NodeStatus, read: EnrRead)
    requires WellTyped(cfg.obol.cfg) && services.streamed == other.streamed
    requires status.megapoolAddress == status'.megapoolAddress
    requires FeeRecipient(status.feeRecipientInfo) == FeeRecipient(status'.feeRecipientInfo)
    ensures LaunchRun(other, ext, cfg, settings, status', read) == LaunchRun(services, ext, cfg, settings, status, read)
  {
    if read.result.Success? {
      assert BuildRequest(cfg, settings, status, read.result.value) == BuildRequest(cfg, settings, status', read.result.value);
    }
  }

  /**
   * Fee-recipient precedence: for a node in the smoothing pool the fee
   * distributor's address plays no part, and for one outside it the
   * smoothing pool's address plays none.
   */
  lemma FeeRecipientUnusedAddressIgnored(services: Services, ext: Externals, other: string)
    requires Loadable(services) && services.nodeStatus.Success?
    ensures var status := services.nodeStatus.value;
      var info := status.feeRecipientInfo;
      var changed := if info.isInSmoothingPool then info.(feeDistributorAddress := other)
                     else info.(smoothingPoolAddress := other);
      CreateDkgRun(services.(nodeStatus := Success(status.(feeRecipientInfo := changed))), ext)
        == CreateDkgRun(services, ext)
  {
    var status := services.nodeStatus.value;
    var info := status.feeRecipientInfo;
    var changed := if info.isInSmoothingPool then info.(feeDistributorAddress := other)
                   else info.(smoothingPoolAddress := other);
    CreateDkgReadsStatusFacts(services, ext, status.(feeRecipientInfo := changed));
  }

  // ---------------------------------------------------------------------
  // Worked cases.

  /**
   * An operator count of "3" with the first member slot blank (and the
   * checks before it passing) stops at that slot with the "required but
   * not configured" error for member ENR 1, before the node is asked
   * anything.
   */
  lemma FirstSlotBlankWithThreeOperators(services: Services, ext: Externals)
    requires Loadable(services) && services.config.Success?
    requires var c := services.config.value.obol.cfg;
      && IsEnabled(c) && ClusterNameOf(c) != "" && NumValidatorsOf(c) > 0 && NumOperatorsOf(c) == "3"
      && !ext.stat(EnrKeyPath(DataDir(services.config.value))).NotExist?
      && OperatorEnrsOf(c)[0] == ""
    ensures CreateDkgRun(services, ext)
            == Run(Fail(Message("member ENR 1" + MissingEnrTail)), [LoadConfigCall])
  {
    var cfg := services.config.value;
    var enrs := OperatorEnrsOf(cfg.obol.cfg);
    ThreeParses();
    CheckEnrsFirstBad(ext, enrs, 0, 2, 0);
    assert ConfigChecks(ext, cfg) == Failure(Message(MissingEnrError(1)));
    MissingEnrText(1, "1");
    assert "member ENR " + "1" == "member ENR 1";
  }

  lemma MissingEnrText(slot: nat, digits: string)
    requires Decimal(slot) == digits
    ensures MissingEnrError(slot) == "member ENR " + digits + MissingEnrTail
  {
  }

  lemma ThreeParses()
    ensures Atoi("3") == Some(3)
  {
    AtoiOfDecimal(3);
    assert Decimal(3) == "3";
  }

  lemma FourParses()
    ensures Atoi("4") == Some(4)
  {
    AtoiOfDecimal(4);
    assert Decimal(4) == "4";
  }

  /**
   * An operator count of "4" asks for three member slots: with only the
   * first two set the checks stop at slot 3, and with all three set and
   * valid the cluster is requested with four operators, the local ENR first.
   */
  lemma FourOperatorsNeedThreeMembers(ext: Externals, cfg: RocketPoolConfig)
    requires WellTyped(cfg.obol.cfg)
    requires var c := cfg.obol.cfg;
      && ClusterNameOf(c) != "" && NumValidatorsOf(c) > 0 && NumOperatorsOf(c) == "4"
      && !ext.stat(EnrKeyPath(DataDir(cfg))).NotExist?
      && SlotOk(ext, OperatorEnrsOf(c)[0]) && SlotOk(ext, OperatorEnrsOf(c)[1])
    ensures var c := cfg.obol.cfg;
      && (OperatorEnrsOf(c)[2] == "" ==> ConfigChecks(ext, cfg) == Failure(Message("member ENR 3" + MissingEnrTail)))
      && (SlotOk(ext, OperatorEnrsOf(c)[2]) ==>
            && ConfigChecks(ext, cfg).Success?
            && ConfigChecks(ext, cfg).value.memberEnrs == OperatorEnrsOf(c)[..3]
            && |OperatorList("", ConfigChecks(ext, cfg).value.memberEnrs)| == 4)
  {
    FourParses();
    var enrs := OperatorEnrsOf(cfg.obol.cfg);
    assert Decimal(3) == "3";
    if enrs[2] == "" {
      CheckEnrsFirstBad(ext, enrs, 0, 3, 2);
      assert ConfigChecks(ext, cfg) == Failure(Message(MissingEnrError(3)));
      MissingEnrText(3, "3");
      assert "member ENR " + "3" == "member ENR 3";
    }
    if SlotOk(ext, enrs[2]) {
      ConfigChecksOperators(ext, cfg);
    }
  }
}
