# Obol add-on for the Rocket Pool Smartnode, in Dafny

The Obol add-on lets a Rocket Pool node operator run a Distributed
Validator cluster with Charon:

- one operator, the cluster *creator*, collects the other operators' ENRs
  (Ethereum Node Records) and publishes a cluster definition;
- the other operators, the *members*, join through the definition URL and
  run the DKG (distributed key generation) ceremony.

This model covers:

- the add-on's parameter table (`addons/obol/config.go`) and the add-on
  object over it (`addons/obol/addon.go`);
- the settings page of the configuration TUI that decides which parameters
  are shown for which role and operator count;
- the four `rocketpool obol` subcommands `create-dkg`, `run-dkg`, `create-enr`
  and `show-enr`, with the shared helpers that read the local ENR and name
  the Charon network.

Modules follow the source files:

| module | file | models |
|---|---|---|
| `Config` | config.dfy | the seventeen-parameter table, its defaults, options and flags, and writing one value |
| `Addon` | addon.dfy | the `Obol` add-on accessors |
| `ConfigPage` | config_page.dfy | `AddonObolPage`: collecting the other parameters, the filtering of `handleEnableChanged`, and the three change callbacks on a `class` |
| `Host` | host.dfy | the Rocket Pool client as a `class` with its answers and a log of calls, the external functions, and command-line composition |
| `CharonUtils` | charon_utils.dfy | `GetLocalENR` and `GetCharonNetwork` |
| `CreateDkg` | create_dkg.dfy | `createDKG` and `validateENR` |
| `RunDkg` | run_dkg.dfy | `runDKG` |
| `CreateEnr` | create_enr.dfy | `createEnr` |
| `ShowEnr` | show_enr.dfy | `showEnr` |
| `GoText`, `Wrappers` | go_text.dfy, wrappers.dfy | the Go library pieces used (`%d`, `strconv.Atoi`, `strings.TrimSpace`, `Join`, `HasPrefix`, wrapping `int` subtraction) and the result types |

## How each subcommand is modelled

Each subcommand is a method over a `Host.Client`. The client's answers
are a fixed `Services` value:

- the loaded configuration;
- the node status;
- the container prefix;
- what each captured or streamed command returns.

Every call through the client is appended to the client's `log`.

Beside each method is a pure function of the same answers (`CreateDkgRun`,
`RunDkgRun`, `CreateEnrRun`, `ShowEnrRun`, `LocalEnrRead`). It returns the
outcome and the list of calls. The method's `ensures` says it returns that
outcome and appends exactly those calls to the log. The lemmas then state
the guard order, the commands issued and what they carry, in terms of that
function.

A subcommand ends in one of three ways:

- success;
- a returned error (`Message`);
- one of the two Go runtime panics the source can reach in `createDKG`.
  Either the ENR loop indexes past the nine slots (`IndexOutOfRange`), or
  `make` is asked for a capacity below zero or one too large to allocate
  (`CapOutOfRange`).

Points of the code's behaviour the model keeps as they are:

- **Operator count range.** `createDKG` parses the operator count but
  never range-checks it; only the settings page's options limit it to
  3..10. For a count entered otherwise:
  - a count of 1 or 2 proceeds with zero or one member ENRs;
  - a count below 1 panics in `make`;
  - a count above 10 panics in the ENR loop.
- **Four operators need three member ENRs.** With an operator count of
  "4", `createDKG` asks for member slots 1 to 3. Two configured member
  ENRs are not enough: the command stops at "member ENR 3" (lemma
  `CreateDkg.FourOperatorsNeedThreeMembers`).
- **Unquoted URL.** `runDKG` passes the definition URL unquoted, and so
  does the model (`RunDkg.RunDkgCommandWords`).
- **Silent network fallback.** `GetCharonNetwork` falls back to "mainnet"
  for an unrecognised network without any notice.
- **Wrapping subtraction.** The page's `numOperators-1` wraps round for the
  smallest 64-bit int (`GoText.Pred64`), so every ENR slot is then shown.

## Model

| member | source | states |
|---|---|---|
| Config.NewConfig | addons/obol/config.go:58-269 | the fresh table has the nine member ENR slots |
| Config.GetParameters | addons/obol/config.go:272-292 | the parameters come one per key, in key order: the i-th is the parameter the i-th key names |
| Config.GetSubconfigs | addons/obol/config.go:295-297 | there are no subconfigs |
| Config.GetConfigTitle | addons/obol/config.go:300-302 | the config's title; Config.SubconfigsAndTitle states that a fresh table's title is "Obol Settings" |
| Config.WithValue | rocketpool-cli/service/config/addon-obol.go:84-110 | overwriting one parameter's value changes that value only: every other parameter, the title and the slot count stay as they were |
| Config.ParameterIds | addons/obol/config.go:272-292 | GetParameters lists exactly seventeen parameters: enabled, clusterRole, containerTag, p2pPort, clusterName, numValidators, numOperators, operatorENR1..9, clusterDefinitionURL, in that order |
| Config.IdsDistinct | addons/obol/config.go:62-267 | no two parameters share an ID |
| Config.IdOfKey | addons/obol/config.go:272-292 | each key's parameter carries the ID at that key's position |
| Config.ClusterRoleTable | addons/obol/config.go:73-91 | the role is a choice defaulting to creator, with exactly the options creator then member |
| Config.OperatorCountTable | addons/obol/config.go:138-157 | the operator count offers the strings "3".."10" in ascending order, each parsing as its own number, and the default "3" is the first option |
| Config.ScalarDefaults | addons/obol/config.go:62-136 | enabled false, tag obolnetwork/charon:v1.7.0 overwritten on upgrade, port 3610, one validator, blank cluster name of at most 64 characters, blank URL; enabled, name and URL may not be blank |
| Config.OperatorEnrTable | addons/obol/config.go:159-256 | slot k is the string parameter "operatorENR"+k named "Member ENR "+k, blank by default, and may be blank exactly from slot 3 on |
| Config.SubconfigsAndTitle | addons/obol/config.go:295-302 | no subconfigs; the title is "Obol Settings" |
| Config.NewConfigValid | addons/obol/config.go:58-269 | the fresh table is valid and every value equals its default |
| Config.DefaultsFit | addons/obol/config.go:58-269 | every default has the Go type the commands assert on that parameter's value |
| Config.SameTypeFits | addons/obol/config.go:58-269 | a value of the default's type is one the commands accept |
| Config.WithValueKeepsWellTyped | rocketpool-cli/service/config/addon-obol.go:84-110 | writing a value of the expected type keeps every value of the expected type |
| Config.WithValueKeepsValid | rocketpool-cli/service/config/addon-obol.go:84-110 | writing a value of the default's type keeps the configuration valid |
| Config.WithValueKeepsShape | rocketpool-cli/service/config/addon-obol.go:84-110 | writing a value leaves every declared attribute of every parameter unchanged |
| Config.OptionsWellTyped | addons/obol/config.go:73-157 | every role option is a role, and every operator-count option is a string |
| Config.ValidParam | addons/obol/config.go:58-269 | a valid configuration declares each parameter exactly as the table does; only values differ |
| Config.ValidIds | addons/obol/config.go:272-292 | a valid configuration's parameters carry the table IDs in table order |
| Addon.NewObol | addons/obol/addon.go:12-16 | a new add-on is over a valid table whose every value is its default |
| Addon.GetName | addons/obol/addon.go:18-20 | the add-on's name; Addon.AddonConstants states it is "Obol DVT" |
| Addon.GetConfig | addons/obol/addon.go:30-32 | the config the add-on holds; Addon.EnabledWriteIsShared states that it shows a write through GetEnabledParameter |
| Addon.GetContainerName | addons/obol/addon.go:34-36 | the container name; Addon.AddonConstants states it is "addon_charon" |
| Addon.GetContainerTag | addons/obol/addon.go:38-40 | the tag; Addon.AccessorsReadConfig states it is the containerTag parameter's current value |
| Addon.GetEnabledParameter | addons/obol/addon.go:42-44 | the enabled parameter; Addon.AccessorsReadConfig states it is the config's own, and Addon.EnabledWriteIsShared that writes through it are shared |
| Addon.GetP2PPort | addons/obol/addon.go:46-48 | the port; Addon.AccessorsReadConfig states it is the p2pPort parameter's current value |
| Addon.SetEnabledValue | addons/obol/addon.go:42-44 | a write through the enabled parameter keeps the slot count |
| Addon.AddonConstants | addons/obol/addon.go:18-36 | the name is "Obol DVT", the container name "addon_charon", and a new add-on's config title is "Obol Settings" |
| Addon.AccessorsReadConfig | addons/obol/addon.go:38-48 | the tag and the port are the current values of the containerTag and p2pPort parameters, and the enabled parameter is the config's first parameter |
| Addon.EnabledWriteIsShared | addons/obol/addon.go:42-44 | a value written through GetEnabledParameter is what GetConfig then shows, and every other parameter is unchanged |
| ConfigPage.FilterVisible | rocketpool-cli/service/config/addon-obol.go:153-177 | the filter of handleEnableChanged never shows more parameters than it is given; what it keeps is stated by FilterKeepsExactlyVisible |
| ConfigPage.Visible | rocketpool-cli/service/config/addon-obol.go:146-176 | the test the filter loop applies to each parameter; ConfigPage.EnrSlotShownIff and ConfigPage.CommonShownForBothRoles state what it admits |
| ConfigPage.FilterKeepsExactlyVisible | rocketpool-cli/service/config/addon-obol.go:153-177 | a key is kept exactly when it is in the list and visible for the role and count, and the kept keys keep their order |
| ConfigPage.FilterAppend | rocketpool-cli/service/config/addon-obol.go:153-177 | filtering a concatenation filters each part |
| ConfigPage.FilterEnrSlots | rocketpool-cli/service/config/addon-obol.go:160-171 | of slots 1..j a creator keeps the first min(j, n-1), with n-1 wrapping as in Go; a member keeps none |
| ConfigPage.ShownSlots | rocketpool-cli/service/config/addon-obol.go:167-171 | a creator sees n-1 slots when that is in 0..9, none for n at most 1, and all nine for n of 10 or more or when n-1 wraps round |
| ConfigPage.DisabledShowsOnlyEnabled | rocketpool-cli/service/config/addon-obol.go:121-127 | with the add-on disabled the form is exactly the enabled box |
| ConfigPage.EnabledShowsRoleThenOthersInOrder | rocketpool-cli/service/config/addon-obol.go:120-182 | when enabled, the form starts with enabled and clusterRole, and the rest keeps the GetParameters order with those two removed |
| ConfigPage.CommonShownForBothRoles | rocketpool-cli/service/config/addon-obol.go:146-158 | containerTag, p2pPort and clusterDefinitionURL are shown whenever the add-on is enabled |
| ConfigPage.OthersForMember | rocketpool-cli/service/config/addon-obol.go:153-177 | a member keeps exactly the tag, the port and the URL |
| ConfigPage.OthersForCreator | rocketpool-cli/service/config/addon-obol.go:153-177 | a creator keeps the five head parameters, slots 1..ShownSlots(n), then the URL |
| ConfigPage.MemberShowsCommonOnly | rocketpool-cli/service/config/addon-obol.go:160-161 | an enabled member's form is enabled, role, tag, port, URL: no name, counts or ENR slot |
| ConfigPage.CreatorShows | rocketpool-cli/service/config/addon-obol.go:160-176 | an enabled creator's form is enabled, role, tag, port, name, validator count, operator count, the shown ENR slots in order, then the URL |
| ConfigPage.EnrSlotShownIff | rocketpool-cli/service/config/addon-obol.go:160-171 | slot k is shown if and only if the add-on is enabled, the role is creator and k <= n-1 |
| ConfigPage.UnparsedCountIsThree | rocketpool-cli/service/config/addon-obol.go:137-141 | an operator count that does not parse is taken as 3; one that parses is taken as its value |
| ConfigPage.IdTestsMatchKeys | rocketpool-cli/service/config/addon-obol.go:147-165 | the source's tests by ID agree with the model's keys on every other parameter: the common-ID set, the "operatorENR" prefix, and the digit at index 11 giving the slot |
| ConfigPage.EnrIdTests | rocketpool-cli/service/config/addon-obol.go:163-165 | slot k's ID is not common, has the prefix and carries k at index 11 |
| ConfigPage.ShownDependsOnlyOnTriggers | rocketpool-cli/service/config/addon-obol.go:84-113 | writing any parameter other than enabled, clusterRole and numOperators leaves the form unchanged, so those three callbacks are the only redraw triggers needed |
| ConfigPage.SkippedIds | rocketpool-cli/service/config/addon-obol.go:68-72 | only the first two table IDs are those of enabled and clusterRole |
| ConfigPage.SelectOtherParams | rocketpool-cli/service/config/addon-obol.go:66-72 | the loop collects every parameter but enabled and clusterRole, in table order |
| ConfigPage.DrawForm | rocketpool-cli/service/config/addon-obol.go:120-182 | the drawing loop produces exactly the form the filter specifies |
| ConfigPage.ObolPage.constructor | rocketpool-cli/service/config/addon-obol.go:54-117 | a new page is consistent (its form is what the values call for) after one draw |
| ConfigPage.ObolPage.HandleEnableChanged | rocketpool-cli/service/config/addon-obol.go:120-182 | a redraw sets the form to what the current values call for and counts one redraw |
| ConfigPage.ObolPage.OnEnabledChanged | rocketpool-cli/service/config/addon-obol.go:84-90 | checking the box to its current value changes nothing and does not redraw; any other value is stored and redraws once; the page stays consistent |
| ConfigPage.ObolPage.OnClusterRoleSelected | rocketpool-cli/service/config/addon-obol.go:92-98 | selecting the current role changes nothing; any other option is stored and redraws once; the page stays consistent |
| ConfigPage.ObolPage.OnNumOperatorsSelected | rocketpool-cli/service/config/addon-obol.go:100-113 | selecting the current count changes nothing; any other option is stored and redraws once; the page stays consistent |
| GoText.Pred64 | rocketpool-cli/obol/create-dkg.go:65 | Go's n-1 on int64: n-1, except that the smallest int wraps round to the largest |
| GoText.Decimal | rocketpool-cli/obol/create-dkg.go:84 | %d gives a non-empty run of digits with no leading zero |
| GoText.Atoi | rocketpool-cli/obol/create-dkg.go:51-55 | a parsed value fits a 64-bit int and comes from non-empty text |
| GoText.AtoiOfDecimal | rocketpool-cli/obol/create-dkg.go:51-55 | Atoi reads back what %d wrote, for every non-negative int64 value |
| GoText.TrimSpace | rocketpool-cli/obol/utils.go:30 | the result neither starts nor ends with white space |
| GoText.TrimSpaceKeepsMiddle | rocketpool-cli/obol/utils.go:30 | the result is a contiguous piece of the input |
| GoText.TrimSpaceIdempotent | rocketpool-cli/obol/utils.go:30 | trimming twice is trimming once |
| GoText.SplitJoin | rocketpool-cli/obol/create-dkg.go:142 | splitting a join at its separator gives back the parts, when no part holds the separator |
| Host.Client.constructor | rocketpool-cli/obol/create-dkg.go:21-22 | a new client has the given answers and an empty log |
| Host.Client.LoadConfig | rocketpool-cli/obol/create-dkg.go:25-28 | returns the configured answer and logs one load |
| Host.Client.NodeStatus | rocketpool-cli/obol/create-dkg.go:94-97 | returns the status answer and logs one status call |
| Host.Client.GetContainerPrefix | rocketpool-cli/obol/create-dkg.go:123-126 | returns the prefix answer and logs one prefix call |
| Host.Client.RunCommandAndReturnOutput | rocketpool-cli/obol/utils.go:15-17 | returns that command's captured reply and logs it |
| Host.Client.RunDockerCommand | rocketpool-cli/obol/create-dkg.go:180-183 | returns that command's outcome and logs it as streamed |
| Host.StreamedRun | rocketpool-cli/obol/create-dkg.go:180-183 | exactly one streamed call is appended; the run fails exactly when the command does, with the command's error behind the context prefix |
| Host.DataDir | rocketpool-cli/obol/run-dkg.go:32 | the data directory is RocketPoolDirectory followed by "/addons/obol" |
| Host.EnrKeyPath | rocketpool-cli/obol/create-dkg.go:58-60 | the path of the local private key in the data directory; ConfigChecksOrder and ConfigChecksPass state that only a not-exist answer for it stops create-dkg |
| Host.FullContainerName | rocketpool-cli/obol/show-enr.go:28-33 | the full container name is prefix + "_addon_charon" |
| Host.ValidateEnr | rocketpool-cli/obol/create-dkg.go:198-207 | passes exactly when the ENR parses; otherwise the parser's error follows "invalid ENR: " |
| Host.DockerRunSplits | rocketpool-cli/obol/create-enr.go:41-42 | a docker run line splits at spaces into the six docker words then the arguments, when none of them holds a space |
| CharonUtils.GetLocalEnr | rocketpool-cli/obol/utils.go:13-31 | returns the read's result and logs exactly its commands |
| CharonUtils.LocalEnrRead | rocketpool-cli/obol/utils.go:13-31 | GetLocalENR as a function of the runner's answers; the LocalEnr lemmas below state its commands, fallback and trimming |
| CharonUtils.LocalEnrCommands | rocketpool-cli/obol/utils.go:15-24 | one or two commands: first docker exec <name> charon enr; a second only if the first failed, and it is the one-shot docker run ... enr |
| CharonUtils.LocalEnrCaptures | rocketpool-cli/obol/utils.go:15-24 | one or two commands are issued, all captured, none streamed |
| CharonUtils.LocalEnrFastPath | rocketpool-cli/obol/utils.go:15-18 | when the running container answers, its trimmed output is the ENR and no fallback is run |
| CharonUtils.LocalEnrFallback | rocketpool-cli/obol/utils.go:19-30 | when exec fails and the one-shot run answers, the run's trimmed output is returned and the first failure leaves no trace |
| CharonUtils.LocalEnrFailsIffBothFail | rocketpool-cli/obol/utils.go:21-27 | the read fails if and only if both commands fail, and then reports the second failure with the create-enr guidance |
| CharonUtils.LocalEnrIsTrimmed | rocketpool-cli/obol/utils.go:30 | a read ENR has no surrounding white space and trims to itself |
| CharonUtils.RunEnrCommandWords | rocketpool-cli/obol/utils.go:21-22 | the fallback command is the docker run words followed by enr |
| CharonUtils.CharonNetwork | rocketpool-cli/obol/utils.go:35-44 | the name is always mainnet or hoodi, and is hoodi exactly for Devnet and Testnet |
| CreateDkg.SlotProblem | rocketpool-cli/obol/create-dkg.go:83-90 | a failing slot i+1 is reported as missing exactly when it is blank, otherwise as invalid |
| CreateDkg.CheckEnrs | rocketpool-cli/obol/create-dkg.go:81-91 | the ENR loop as a recursion over slots; CheckEnrsSucceeds, CheckEnrsFirstBad, CheckEnrsPanics and CheckEnrsReadsOnlyRequired state what it does |
| CreateDkg.CollectOperatorEnrs | rocketpool-cli/obol/create-dkg.go:69-91 | the loop returns what the recursive function CheckEnrs gives, its problem turned into the command's error |
| CreateDkg.CheckEnrsSucceeds | rocketpool-cli/obol/create-dkg.go:81-91 | the loop succeeds if and only if every slot it asks for exists, is set and parses, and it then returns exactly those slots in order |
| CreateDkg.CheckEnrsFirstBad | rocketpool-cli/obol/create-dkg.go:81-91 | slots are checked in ascending order, and the first failing one decides the error |
| CreateDkg.CheckEnrsPanics | rocketpool-cli/obol/create-dkg.go:81-82 | the loop reads past the last slot if and only if it asks for more slots than there are and every slot passes |
| CreateDkg.CheckEnrsReadsOnlyRequired | rocketpool-cli/obol/create-dkg.go:81-91 | slots at or beyond the number asked for are never read |
| CreateDkg.CheckConfiguration | rocketpool-cli/obol/create-dkg.go:39-91 | the method's checks give exactly ConfigChecks' result |
| CreateDkg.ConfigChecks | rocketpool-cli/obol/create-dkg.go:39-91 | the configuration checks of createDKG; ConfigChecksOrder, ConfigChecksPass, ConfigChecksNoPanic and ConfigChecksOperators state what they do |
| CreateDkg.ConfigChecksOrder | rocketpool-cli/obol/create-dkg.go:39-91 | the checks run in the order name, validators, operator count, key file, make capacity, member ENRs, and the first failure decides the error |
| CreateDkg.ConfigChecksPass | rocketpool-cli/obol/create-dkg.go:39-91 | the checks pass if and only if the name is set, there is a validator, the count parses as n in 1..10, the key file is not missing and slots 1..n-1 are set and parse; the settings then carry those slots in order |
| CreateDkg.ConfigChecksNoPanic | rocketpool-cli/obol/create-dkg.go:51-82 | an index panic needs a count above 10, and a make panic a count below 1 or one too large to allocate |
| CreateDkg.ConfigChecksOperators | rocketpool-cli/obol/create-dkg.go:51-142 | after the checks pass, the count n is in 1..10, the members are the first n-1 slots, and with the local ENR in front the operator list has length n |
| CreateDkg.FeeRecipient | rocketpool-cli/obol/create-dkg.go:106-116 | the fee recipient is the smoothing pool's address when the node is in the pool, and the fee distributor's address otherwise |
| CreateDkg.FeeRecipientUnusedAddressIgnored | rocketpool-cli/obol/create-dkg.go:106-116 | in the smoothing pool the fee distributor's address plays no part in the run, and outside it the pool's address plays none |
| CreateDkg.OperatorList | rocketpool-cli/obol/create-dkg.go:141 | the local ENR comes first, followed by the members in slot order |
| CreateDkg.OperatorEnrsArgumentSplits | rocketpool-cli/obol/create-dkg.go:142 | the comma-joined operator list splits back into the same ENRs |
| CreateDkg.CreateDkgCommandWords | rocketpool-cli/obol/create-dkg.go:165-174 | the create dkg line splits into the docker run words then create, dkg and the seven flags with their values, each exactly one argument, when no value holds a space |
| CreateDkg.CreateDkgCommand | rocketpool-cli/obol/create-dkg.go:165-174 | the create dkg command line; CreateDkgCommandWords states its words |
| CreateDkg.CreateDkgCommandRun | rocketpool-cli/obol/create-dkg.go:18-195 | the command's outcome and its calls are exactly those of CreateDkgRun |
| CreateDkg.CreateDkgRun | rocketpool-cli/obol/create-dkg.go:18-195 | createDKG as a function of the client's answers; the CreateDkg lemmas after it state its order, calls and command |
| CreateDkg.RequestCluster | rocketpool-cli/obol/create-dkg.go:94-194 | the node, megapool, fee and prefix steps and the rest give exactly ClusterRun's outcome and calls |
| CreateDkg.Publish | rocketpool-cli/obol/create-dkg.go:130-194 | the local ENR read, its check and the streamed command give exactly PublishRun's outcome and calls |
| CreateDkg.CreateDkgGuards | rocketpool-cli/obol/create-dkg.go:25-33 | a load failure or a disabled add-on ends the command with the load's error or the disabled error, and only the load was called |
| CreateDkg.CreateDkgChecksComeFirst | rocketpool-cli/obol/create-dkg.go:25-97 | the loaded configuration is the first call and the only one if and only if the load failed, the add-on is disabled or a configuration check failed; a failed check is the command's error; otherwise the node status comes next |
| CreateDkg.ClusterRunOrder | rocketpool-cli/obol/create-dkg.go:94-138 | a node-status error, an undeployed megapool, a prefix error, a failed local-ENR read and an invalid local ENR end the command in that order, each with its own error text, after exactly the calls made so far |
| CreateDkg.CreateDkgCallsShape | rocketpool-cli/obol/create-dkg.go:25-194 | one to six calls; at most one command is streamed and only as the last call; success always ends with it |
| CreateDkg.CreateDkgCommandSent | rocketpool-cli/obol/create-dkg.go:120-183 | a streamed command means every check passed and the local ENR was read and parses, and the command carries the data directory, tag, name, validator count, megapool address, fee recipient, local ENR followed by the member ENRs, and the Charon network |
| CreateDkg.CreateDkgRunsCommandOnceChecksPass | rocketpool-cli/obol/create-dkg.go:130-194 | once the load, the enabled flag, the configuration checks, the node status, the megapool, the prefix, the local ENR read and its check all pass, the calls end with the create dkg command streamed once, and the command succeeds exactly when that command does, its failure reported behind "error creating cluster: " |
| CreateDkg.CreateDkgReadsStatusFacts | rocketpool-cli/obol/create-dkg.go:94-116 | of the node status only the megapool flag, the megapool address and the fee recipient matter |
| CreateDkg.FirstSlotBlankWithThreeOperators | rocketpool-cli/obol/create-dkg.go:81-85 | count "3" with slot 1 blank fails with "member ENR 1 is required but not configured…" after the load and nothing else |
| CreateDkg.FourOperatorsNeedThreeMembers | rocketpool-cli/obol/create-dkg.go:51-91 | count "4" with slots 1 and 2 valid fails on a blank slot 3; with slot 3 valid it passes with members slots 1..3 and four operators |
| RunDkg.RunDkgCommandRun | rocketpool-cli/obol/run-dkg.go:11-83 | the command's outcome and its calls are exactly those of RunDkgRun |
| RunDkg.RunDkgRun | rocketpool-cli/obol/run-dkg.go:11-83 | runDKG as a function of the client's answers; RunDkgGuards and RunDkgRunsOneCommand state what it does |
| RunDkg.RunDkgCommand | rocketpool-cli/obol/run-dkg.go:53-57 | the dkg command line; RunDkgCommandWords states its words |
| RunDkg.RunDkgGuards | rocketpool-cli/obol/run-dkg.go:18-43 | a load failure, a disabled add-on and a blank URL end the command in that order with their errors, only the load called |
| RunDkg.RunDkgRunsOneCommand | rocketpool-cli/obol/run-dkg.go:32-82 | past the guards, and only then, exactly one command is run, dkg over RocketPoolDirectory/addons/obol with the tag and URL; it fails exactly when that command fails, with the wrapped error |
| RunDkg.RunDkgCommandWords | rocketpool-cli/obol/run-dkg.go:53-57 | the dkg line splits into the docker run words, dkg and --definition-file= with the URL verbatim, unquoted |
| CreateEnr.CreateEnrCommandRun | rocketpool-cli/obol/create-enr.go:10-55 | the command's outcome and its calls are exactly those of CreateEnrRun |
| CreateEnr.CreateEnrRun | rocketpool-cli/obol/create-enr.go:10-55 | createEnr as a function of the client's answers; CreateEnrRunsOneCommand states what it does |
| CreateEnr.CreateEnrCommand | rocketpool-cli/obol/create-enr.go:41-42 | the create enr command line; CreateEnrCommandWords states its words |
| CreateEnr.CreateEnrRunsOneCommand | rocketpool-cli/obol/create-enr.go:17-54 | a load failure or a disabled add-on ends the command with nothing run; otherwise exactly one create enr command is run over RocketPoolDirectory/addons/obol with the tag, and it fails exactly when the command fails, with the wrapped error |
| CreateEnr.CreateEnrCommandWords | rocketpool-cli/obol/create-enr.go:41-42 | the line splits into the docker run words then create and enr |
| ShowEnr.ShowEnrCommandRun | rocketpool-cli/obol/show-enr.go:10-53 | the command's result and its calls are exactly those of ShowEnrRun |
| ShowEnr.ShowEnrRun | rocketpool-cli/obol/show-enr.go:10-53 | showEnr as a function of the client's answers; ShowEnrGuards, ShowEnrDelegates and ShowEnrAsksRunningContainerFirst state what it does |
| ShowEnr.ShowEnrGuards | rocketpool-cli/obol/show-enr.go:17-33 | a load failure, a disabled add-on and a prefix error end the command in that order, and no ENR command is issued |
| ShowEnr.ShowEnrDelegates | rocketpool-cli/obol/show-enr.go:28-52 | past the guards the result is GetLocalENR's for the tag, RocketPoolDirectory/addons/obol and prefix_addon_charon: the same commands, the same ENR, its error passed on unchanged |
| ShowEnr.ShowEnrAsksRunningContainerFirst | rocketpool-cli/obol/show-enr.go:28-43 | the first ENR command asks the running prefix_addon_charon container |

## Left out

- Go leaves a parameter's `Value` unset until the host fills in the
  default. `Config.NewConfig` stores the default as the value from the
  start.
- `GetDescription`, the parameter descriptions and every `fmt.Print*` line
  are text for the user. They are left out. The ENR `showEnr` prints is the
  method's success value.
- `rp.Close` and the client's connection handling are left out.
- The TUI's rendering is left out: tview form items, focus, description
  boxes and `layout.refresh`. The form is the ordered list of parameter
  keys it holds, and each redraw is counted.
- Loaded values are assumed to have the Go types the commands assert. This
  is `Host.Loadable` and `Config.WellTyped`. A failing type assertion, a
  panic in Go, is not modelled.
- Strings are sequences of Unicode characters, so the page's `id[11]`
  byte read is a character read. On the table's IDs the two agree, since
  they are ASCII.
- These external functions are uninterpreted, taken from an `Externals`
  value:
  - ENR parsing and signature checking (`enode.Parse` with the v4
    identity scheme of EIP-778);
  - `shellescape.Quote`;
  - the text of strconv's error for an operator count that does not parse;
  - `os.Stat`.

  Only `os.Stat`'s not-exist answer fails the key-file check, as in the
  code.
- The node status, the container prefix, the loaded configuration and
  every Docker run are answers of the `Host.Client`. The command runners
  are not modelled further.
- Addresses are strings already rendered as hex by `Address.Hex`.
- The Smartnode network comes from a field of the loaded configuration.
- `CreateDkg.ConfigChecks`: `make` with a capacity from 10 up to the
  allocation limit is taken to succeed. The model then reaches the loop's
  index panic. A real out-of-memory failure of such an allocation is not
  modelled.
- `createDKG` is one Go function. The model splits it into the methods
  `CheckConfiguration`, `RequestCluster` and `Publish` to keep each proof
  small. They run in the source's order with the same calls.
- `Host.EnrKeyPath`: Go's `filepath.Join` cleans the joined path (it
  drops a doubled or trailing `/`, for instance); the model concatenates
  the data directory and the file name. `os.Stat` is uninterpreted, so
  nothing in the model depends on the difference.
- `Host.Network`: `OtherNetwork` stands for a network setting other than
  the mainnet, devnet and testnet constants, so its name is never one of
  theirs; the model does not state this as a predicate.
- `rocketpool-cli/obol/status.go` only prints status fetched from external
  clients, so it is not part of this model.
- `rocketpool-cli/obol/commands.go` registers the commands with the CLI
  framework, so it is not part of this model.
