/**
 * The Obol add-on's parameter table (addons/obol/config.go): seventeen typed
 * parameters in a fixed order, each with an ID, a display name, a type, a
 * default, a current value, the containers it affects, whether it may be
 * blank, whether an upgrade overwrites it, a maximum length and choice
 * options. The nine member-ENR parameters are one indexed sequence of slots.
 */
module Config {
  import opened Wrappers
  import opened GoText

  type uint16 = x: int | 0 <= x < 0x1_0000
  type uint64 = x: int | 0 <= x < 0x1_0000_0000_0000_0000

  /** How many member-ENR slots the table has. */
  const EnrSlots: nat := 9

  /** The container the add-on runs (`CharonContainerName`). */
  const CharonContainerName: string := "addon_charon"

  const ConfigTitle: string := "Obol Settings"

  /** Containers a parameter change restarts. */
  datatype ContainerId = ValidatorContainer | CharonContainer

  /** `obol.ClusterRole`. */
  datatype ClusterRole = Creator | Member

  function RoleName(role: ClusterRole): string {
    match role
    case Creator => "creator"
    case Member => "member"
  }

  datatype ParameterType = BoolParam | ChoiceParam | StringParam | Uint16Param | UintParam

  /** A parameter's value, tagged with the Go type it is stored as. */
  datatype Value =
    | BoolValue(b: bool)
    | StringValue(s: string)
    | Uint16Value(u16: uint16)
    | UintValue(u64: uint64)
    | RoleValue(role: ClusterRole)

  datatype ParameterOption = ParameterOption(name: string, description: string, value: Value)

  /**
   * `config.Parameter`. The default is the one for every network
   * (`Network_All`), the only key the Obol table uses.
   */
  datatype Parameter = Parameter(
    id: string,
    name: string,
    kind: ParameterType,
    defaultValue: Value,
    value: Value,
    affects: seq<ContainerId>,
    canBeBlank: bool,
    overwriteOnUpgrade: bool,
    maxLength: nat,
    options: seq<ParameterOption>)

  /** `ObolConfig`; `operatorEnrs[k - 1]` is the parameter `OperatorENR<k>`. */
  datatype ObolConfig = ObolConfig(
    title: string,
    enabled: Parameter,
    clusterRole: Parameter,
    containerTag: Parameter,
    p2pPort: Parameter,
    clusterName: Parameter,
    numValidators: Parameter,
    numOperators: Parameter,
    operatorEnrs: seq<Parameter>,
    clusterDefinitionUrl: Parameter)

  /** Names one parameter of the table; `OperatorEnrKey(k)` is member ENR slot k (1-based). */
  datatype ParamKey =
    | EnabledKey
    | ClusterRoleKey
    | ContainerTagKey
    | P2PPortKey
    | ClusterNameKey
    | NumValidatorsKey
    | NumOperatorsKey
    | OperatorEnrKey(slot: nat)
    | ClusterDefinitionUrlKey

  /** The keys of the table, in the order GetParameters lists the parameters. */
  function Keys(): (ks: seq<ParamKey>)
    ensures |ks| == 17
  {
    [EnabledKey, ClusterRoleKey, ContainerTagKey, P2PPortKey, ClusterNameKey,
     NumValidatorsKey, NumOperatorsKey]
    + EnrKeys(EnrSlots)
    + [ClusterDefinitionUrlKey]
  }

  /** The keys of member ENR slots 1..n. */
  function EnrKeys(n: nat): (ks: seq<ParamKey>)
    ensures |ks| == n && forall i :: 0 <= i < n ==> ks[i] == OperatorEnrKey(i + 1)
  {
    seq(n, i requires 0 <= i < n => OperatorEnrKey(i + 1))
  }

  /** Whether `k` names a parameter of a config with `slots` ENR slots. */
  predicate HasKey(slots: nat, k: ParamKey) {
    k.OperatorEnrKey? ==> 1 <= k.slot <= slots
  }

  /** The parameter `k` names. */
  function Param(cfg: ObolConfig, k: ParamKey): Parameter
    requires HasKey(|cfg.operatorEnrs|, k)
  {
    match k
    case EnabledKey => cfg.enabled
    case ClusterRoleKey => cfg.clusterRole
    case ContainerTagKey => cfg.containerTag
    case P2PPortKey => cfg.p2pPort
    case ClusterNameKey => cfg.clusterName
    case NumValidatorsKey => cfg.numValidators
    case NumOperatorsKey => cfg.numOperators
    case OperatorEnrKey(slot) => cfg.operatorEnrs[slot - 1]
    case ClusterDefinitionUrlKey => cfg.clusterDefinitionUrl
  }

  /** `cfg` with the value of parameter `k` overwritten by `v` (`param.Value = v`). */
  function WithValue(cfg: ObolConfig, k: ParamKey, v: Value): (c: ObolConfig)
    requires HasKey(|cfg.operatorEnrs|, k)
    ensures |c.operatorEnrs| == |cfg.operatorEnrs| && c.title == cfg.title
    ensures Param(c, k) == Param(cfg, k).(value := v)
    ensures forall k' :: HasKey(|cfg.operatorEnrs|, k') && k' != k ==> Param(c, k') == Param(cfg, k')
  {
    match k
    case EnabledKey => cfg.(enabled := cfg.enabled.(value := v))
    case ClusterRoleKey => cfg.(clusterRole := cfg.clusterRole.(value := v))
    case ContainerTagKey => cfg.(containerTag := cfg.containerTag.(value := v))
    case P2PPortKey => cfg.(p2pPort := cfg.p2pPort.(value := v))
    case ClusterNameKey => cfg.(clusterName := cfg.clusterName.(value := v))
    case NumValidatorsKey => cfg.(numValidators := cfg.numValidators.(value := v))
    case NumOperatorsKey => cfg.(numOperators := cfg.numOperators.(value := v))
    case OperatorEnrKey(slot) =>
      cfg.(operatorEnrs := cfg.operatorEnrs[slot - 1 := cfg.operatorEnrs[slot - 1].(value := v)])
    case ClusterDefinitionUrlKey => cfg.(clusterDefinitionUrl := cfg.clusterDefinitionUrl.(value := v))
  }

  /** A parameter as the table declares it; its value starts out as its default. */
  function NewParameter(id: string, name: string, kind: ParameterType, defaultValue: Value,
                        affects: seq<ContainerId>, canBeBlank: bool, overwriteOnUpgrade: bool,
                        maxLength: nat, options: seq<ParameterOption>): Parameter
  {
    Parameter(id, name, kind, defaultValue, defaultValue, affects, canBeBlank,
              overwriteOnUpgrade, maxLength, options)
  }

  /** The options of the cluster-role choice. */
  function RoleOptions(): seq<ParameterOption> {
    [ParameterOption("Cluster Creator", "Create a new cluster and coordinate the DKG ceremony", RoleValue(Creator)),
     ParameterOption("Cluster Member Node", "Join an existing cluster as a member operator", RoleValue(Member))]
  }

  /** The options of the operator-count choice: "3" up to "10". */
  function OperatorCountOptions(): seq<ParameterOption> {
    seq(8, i requires 0 <= i < 8 => ParameterOption(Decimal(i + 3), Decimal(i + 3) + " operators", StringValue(Decimal(i + 3))))
  }

  /** Parameter `OperatorENR<k>`: only slots 1 and 2 may not be blank. */
  function OperatorEnrParameter(k: nat): Parameter {
    NewParameter("operatorENR" + Decimal(k), "Member ENR " + Decimal(k), StringParam, StringValue(""),
                 [CharonContainer], k >= 3, false, 0, [])
  }

  /** `NewConfig`: the table with every value at its default. */
  function NewConfig(): (cfg: ObolConfig)
    ensures |cfg.operatorEnrs| == EnrSlots
  {
    ObolConfig(
      ConfigTitle,
      NewParameter("enabled", "Enabled", BoolParam, BoolValue(false),
                   [ValidatorContainer, CharonContainer], false, false, 0, []),
      NewParameter("clusterRole", "Cluster Role", ChoiceParam, RoleValue(Creator),
                   [ValidatorContainer, CharonContainer], false, false, 0, RoleOptions()),
      NewParameter("containerTag", "Container Tag", StringParam, StringValue("obolnetwork/charon:v1.7.0"),
                   [CharonContainer], false, true, 0, []),
      NewParameter("p2pPort", "P2P Port", Uint16Param, Uint16Value(3610),
                   [CharonContainer], false, false, 0, []),
      NewParameter("clusterName", "Cluster Name", StringParam, StringValue(""),
                   [CharonContainer], false, false, 64, []),
      NewParameter("numValidators", "Number of Validators", UintParam, UintValue(1),
                   [CharonContainer], false, false, 0, []),
      NewParameter("numOperators", "Number of Operators", ChoiceParam, StringValue("3"),
                   [CharonContainer], false, false, 0, OperatorCountOptions()),
      seq(EnrSlots, i requires 0 <= i < EnrSlots => OperatorEnrParameter(i + 1)),
      NewParameter("clusterDefinitionURL", "Cluster Definition URL", StringParam, StringValue(""),
                   [CharonContainer], false, false, 0, []))
  }

  /** `GetParameters`: the parameters in table order, one per key. */
  function GetParameters(cfg: ObolConfig): (ps: seq<Parameter>)
    requires |cfg.operatorEnrs| == EnrSlots
    ensures |ps| == |Keys()| && forall i :: 0 <= i < |ps| ==> ps[i] == Param(cfg, Keys()[i])
  {
    [cfg.enabled, cfg.clusterRole, cfg.containerTag, cfg.p2pPort, cfg.clusterName,
     cfg.numValidators, cfg.numOperators]
    + cfg.operatorEnrs
    + [cfg.clusterDefinitionUrl]
  }

  /** `GetSubconfigs`: the Obol settings have no sections. */
  function GetSubconfigs(cfg: ObolConfig): (subs: map<string, ObolConfig>)
    ensures |subs| == 0
  {
    map[]
  }

  /** `GetConfigTitle`. */
  function GetConfigTitle(cfg: ObolConfig): string {
    cfg.title
  }

  /** The ID the table gives key `k`. */
  function Id(k: ParamKey): string
    requires HasKey(EnrSlots, k)
  {
    Param(NewConfig(), k).id
  }

  /** The values hold the Go types the commands assert them to have. */
  predicate WellTyped(cfg: ObolConfig) {
    && |cfg.operatorEnrs| == EnrSlots
    && cfg.enabled.value.BoolValue?
    && cfg.clusterRole.value.RoleValue?
    && cfg.containerTag.value.StringValue?
    && cfg.p2pPort.value.Uint16Value?
    && cfg.clusterName.value.StringValue?
    && cfg.numValidators.value.UintValue?
    && cfg.numOperators.value.StringValue?
    && (forall i :: 0 <= i < |cfg.operatorEnrs| ==> cfg.operatorEnrs[i].value.StringValue?)
    && cfg.clusterDefinitionUrl.value.StringValue?
  }

  /** A parameter with its value reset to its default: everything but the value. */
  function Declared(p: Parameter): Parameter {
    p.(value := p.defaultValue)
  }

  /** Everything of a config but its values. */
  function Shape(cfg: ObolConfig): ObolConfig {
    ObolConfig(cfg.title, Declared(cfg.enabled), Declared(cfg.clusterRole), Declared(cfg.containerTag),
               Declared(cfg.p2pPort), Declared(cfg.clusterName), Declared(cfg.numValidators),
               Declared(cfg.numOperators),
               seq(|cfg.operatorEnrs|, i requires 0 <= i < |cfg.operatorEnrs| => Declared(cfg.operatorEnrs[i])),
               Declared(cfg.clusterDefinitionUrl))
  }

  /** A config as the table declares it, with values of the declared types. */
  predicate Valid(cfg: ObolConfig) {
    WellTyped(cfg) && Shape(cfg) == NewConfig()
  }

  // Typed reads of the current values (Go's `.Value.(T)` assertions).

  function IsEnabled(cfg: ObolConfig): bool requires WellTyped(cfg) { cfg.enabled.value.b }
  function RoleOf(cfg: ObolConfig): ClusterRole requires WellTyped(cfg) { cfg.clusterRole.value.role }
  function ContainerTagOf(cfg: ObolConfig): string requires WellTyped(cfg) { cfg.containerTag.value.s }
  function P2PPortOf(cfg: ObolConfig): uint16 requires WellTyped(cfg) { cfg.p2pPort.value.u16 }
  function ClusterNameOf(cfg: ObolConfig): string requires WellTyped(cfg) { cfg.clusterName.value.s }
  function NumValidatorsOf(cfg: ObolConfig): uint64 requires WellTyped(cfg) { cfg.numValidators.value.u64 }
  function NumOperatorsOf(cfg: ObolConfig): string requires WellTyped(cfg) { cfg.numOperators.value.s }
  function ClusterDefinitionUrlOf(cfg: ObolConfig): string requires WellTyped(cfg) { cfg.clusterDefinitionUrl.value.s }

  /** The nine member-ENR values, slot 1 first. */
  function OperatorEnrsOf(cfg: ObolConfig): (enrs: seq<string>)
    requires WellTyped(cfg)
    ensures |enrs| == EnrSlots
    ensures forall i :: 0 <= i < EnrSlots ==> StringValue(enrs[i]) == Param(cfg, OperatorEnrKey(i + 1)).value
  {
    seq(EnrSlots, i requires 0 <= i < EnrSlots => cfg.operatorEnrs[i].value.s)
  }

  // ---------------------------------------------------------------------
  // Properties of the table.

  /** The parameter IDs, in the order GetParameters lists them. */
  const TableIds: seq<string> :=
    ["enabled", "clusterRole", "containerTag", "p2pPort", "clusterName", "numValidators",
     "numOperators", "operatorENR1", "operatorENR2", "operatorENR3", "operatorENR4",
     "operatorENR5", "operatorENR6", "operatorENR7", "operatorENR8", "operatorENR9",
     "clusterDefinitionURL"]

  /** GetParameters lists exactly the seventeen table IDs, in order. */
  lemma ParameterIds()
    ensures var ps := GetParameters(NewConfig());
      |ps| == |TableIds| && forall i :: 0 <= i < |ps| ==> ps[i].id == TableIds[i]
  {
    var ps := GetParameters(NewConfig());
    forall i | 7 <= i < 16 ensures ps[i].id == TableIds[i] {
      assert ps[i] == OperatorEnrParameter(i - 6);
      assert DigitChar(i - 6) == "123456789"[i - 7];
    }
  }

  /** No two parameters share an ID. */
  lemma IdsDistinct()
    ensures forall i, j :: 0 <= i < j < |TableIds| ==> TableIds[i] != TableIds[j]
  {
  }

  /** Key `k`'s ID is its entry in TableIds, so keys and IDs are in one-to-one correspondence. */
  lemma IdOfKey(i: nat)
    requires i < |Keys()|
    ensures HasKey(EnrSlots, Keys()[i]) && Id(Keys()[i]) == TableIds[i]
  {
    ParameterIds();
  }

  /** The cluster role defaults to creator and offers exactly creator, then member. */
  lemma ClusterRoleTable()
    ensures var p := NewConfig().clusterRole;
      && p.kind == ChoiceParam && p.defaultValue == RoleValue(Creator)
      && |p.options| == 2
      && p.options[0].value == RoleValue(Creator) && p.options[1].value == RoleValue(Member)
      && p.options[0].name == "Cluster Creator" && p.options[1].name == "Cluster Member Node"
  {
  }

  /**
   * The operator-count options are "3" to "10" in ascending order, each
   * one parsing as its own number, and the default "3" is the first.
   */
  lemma {:induction false} OperatorCountTable()
    ensures var p := NewConfig().numOperators;
      && p.kind == ChoiceParam && |p.options| == 8
      && (forall i :: 0 <= i < 8 ==>
            && p.options[i].value.StringValue?
            && p.options[i].name == p.options[i].value.s
            && Atoi(p.options[i].value.s) == Some(i + 3))
      && p.defaultValue == p.options[0].value
  {
    var p := NewConfig().numOperators;
    forall i | 0 <= i < 8
      ensures p.options[i].value.StringValue? && p.options[i].name == p.options[i].value.s
      ensures Atoi(p.options[i].value.s) == Some(i + 3)
    {
      AtoiOfDecimal(i + 3);
    }
    assert Decimal(3) == "3";
  }

  /** The defaults of the other scalar parameters. */
  lemma ScalarDefaults()
    ensures var c := NewConfig();
      && c.enabled.defaultValue == BoolValue(false) && c.enabled.kind == BoolParam
      && c.containerTag.defaultValue == StringValue("obolnetwork/charon:v1.7.0")
      && c.containerTag.overwriteOnUpgrade
      && c.p2pPort.defaultValue == Uint16Value(3610) && c.p2pPort.kind == Uint16Param
      && c.numValidators.defaultValue == UintValue(1) && c.numValidators.kind == UintParam
      && c.clusterName.defaultValue == StringValue("") && c.clusterName.maxLength == 64
      && c.clusterDefinitionUrl.defaultValue == StringValue("")
      && !c.enabled.canBeBlank && !c.clusterName.canBeBlank && !c.clusterDefinitionUrl.canBeBlank
  {
  }

  /**
   * Member ENR slot k is the string parameter "operatorENR<k>", named
   * "Member ENR <k>", empty by default, and may be blank only from slot 3 on.
   */
  lemma OperatorEnrTable(k: nat)
    requires 1 <= k <= EnrSlots
    ensures var p := Param(NewConfig(), OperatorEnrKey(k));
      && p.id == "operatorENR" + [DigitChar(k)]
      && p.name == "Member ENR " + [DigitChar(k)]
      && p.kind == StringParam && p.defaultValue == StringValue("")
      && (p.canBeBlank <==> k >= 3)
  {
  }

  /** The config has no sections and is titled "Obol Settings". */
  lemma SubconfigsAndTitle()
    ensures GetSubconfigs(NewConfig()) == map[]
    ensures GetConfigTitle(NewConfig()) == "Obol Settings"
  {
  }

  /** Every value of the fresh table is its default, so the fresh table is valid. */
  lemma NewConfigValid()
    ensures Valid(NewConfig())
    ensures forall i :: 0 <= i < |Keys()| ==> GetParameters(NewConfig())[i].value == GetParameters(NewConfig())[i].defaultValue
  {
    var c := NewConfig();
    assert Shape(c).operatorEnrs == c.operatorEnrs;
  }

  /** Whether two values are stored as the same Go type. */
  predicate SameType(v: Value, w: Value) {
    match v
    case BoolValue(_) => w.BoolValue?
    case StringValue(_) => w.StringValue?
    case Uint16Value(_) => w.Uint16Value?
    case UintValue(_) => w.UintValue?
    case RoleValue(_) => w.RoleValue?
  }

  /** The Go type the commands expect the value of parameter `k` to have. */
  predicate Fits(k: ParamKey, v: Value) {
    match k
    case EnabledKey => v.BoolValue?
    case ClusterRoleKey => v.RoleValue?
    case P2PPortKey => v.Uint16Value?
    case NumValidatorsKey => v.UintValue?
    case _ => v.StringValue?
  }

  /** Each parameter's default has the type the commands expect of its value. */
  lemma DefaultsFit(k: ParamKey)
    requires HasKey(EnrSlots, k)
    ensures Fits(k, Param(NewConfig(), k).defaultValue)
  {
    if k.OperatorEnrKey? {
      OperatorEnrTable(k.slot);
    }
  }

  /** A value of the default's type is one the commands expect. */
  lemma SameTypeFits(k: ParamKey, v: Value)
    requires HasKey(EnrSlots, k)
    requires SameType(v, Param(NewConfig(), k).defaultValue)
    ensures Fits(k, v)
  {
    DefaultsFit(k);
  }

  /** Writing a value of the expected type keeps the values well typed. */
  lemma WithValueKeepsWellTyped(cfg: ObolConfig, k: ParamKey, v: Value)
    requires WellTyped(cfg) && HasKey(EnrSlots, k) && Fits(k, v)
    ensures WellTyped(WithValue(cfg, k, v))
  {
    if k.OperatorEnrKey? {
      var c := WithValue(cfg, k, v);
      assert forall i :: 0 <= i < EnrSlots && i != k.slot - 1 ==> c.operatorEnrs[i] == cfg.operatorEnrs[i];
    }
  }

  /**
   * Overwriting a value with one of the type of the parameter's default
   * keeps the config valid: editing values never changes the table.
   */
  lemma WithValueKeepsValid(cfg: ObolConfig, k: ParamKey, v: Value)
    requires Valid(cfg) && HasKey(EnrSlots, k)
    requires SameType(v, Param(NewConfig(), k).defaultValue)
    ensures Valid(WithValue(cfg, k, v))
  {
    SameTypeFits(k, v);
    WithValueKeepsWellTyped(cfg, k, v);
    WithValueKeepsShape(cfg, k, v);
  }

  /** Writing a value leaves every declared attribute of every parameter as it was. */
  lemma WithValueKeepsShape(cfg: ObolConfig, k: ParamKey, v: Value)
    requires HasKey(|cfg.operatorEnrs|, k)
    ensures Shape(WithValue(cfg, k, v)) == Shape(cfg)
  {
    var c := WithValue(cfg, k, v);
    assert Shape(c).operatorEnrs == Shape(cfg).operatorEnrs;
  }

  /** Every option the role and operator-count choices offer has the type of that choice's default. */
  lemma OptionsWellTyped(cfg: ObolConfig)
    requires Valid(cfg)
    ensures forall i :: 0 <= i < |cfg.clusterRole.options| ==> cfg.clusterRole.options[i].value.RoleValue?
    ensures forall i :: 0 <= i < |cfg.numOperators.options| ==> cfg.numOperators.options[i].value.StringValue?
  {
    assert Shape(cfg).clusterRole == NewConfig().clusterRole;
    assert Shape(cfg).numOperators == NewConfig().numOperators;
  }

  /** A valid config declares each parameter exactly as the table does; only values differ. */
  lemma ValidParam(cfg: ObolConfig, k: ParamKey)
    requires Valid(cfg) && HasKey(EnrSlots, k)
    ensures Declared(Param(cfg, k)) == Param(NewConfig(), k)
  {
    if k.OperatorEnrKey? {
      assert Shape(cfg).operatorEnrs[k.slot - 1] == NewConfig().operatorEnrs[k.slot - 1];
    }
  }

  /** A valid config's parameters carry the table IDs, in table order. */
  lemma ValidIds(cfg: ObolConfig)
    requires Valid(cfg)
    ensures forall i :: 0 <= i < |Keys()| ==> GetParameters(cfg)[i].id == TableIds[i]
  {
    forall i | 0 <= i < |Keys()| ensures GetParameters(cfg)[i].id == TableIds[i] {
      IdOfKey(i);
      ValidParam(cfg, Keys()[i]);
    }
  }
}
