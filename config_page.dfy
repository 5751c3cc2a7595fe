/**
 * The Obol settings page of the configuration TUI
 * (rocketpool-cli/service/config/addon-obol.go). What is kept is the list
 * of parameters the form shows, top to bottom, and when it is rebuilt:
 * the enabled box, and once enabled the cluster-role box followed by the
 * other parameters that the role and the operator count call for.
 */
module ConfigPage {
  import opened Wrappers
  import opened GoText
  import opened Config
  import opened Addon

  /** The parameters other than enabled and clusterRole, in table order. */
  function OtherKeys(): (ks: seq<ParamKey>)
    ensures |ks| == 15
  {
    Keys()[2..]
  }

  /** The IDs of the parameters drawn for both roles (`commonParams`). */
  const CommonIds: set<string> := {"containerTag", "p2pPort", "clusterDefinitionURL"}

  predicate IsCommon(k: ParamKey) {
    k == ContainerTagKey || k == P2PPortKey || k == ClusterDefinitionUrlKey
  }

  /**
   * Whether handleEnableChanged draws the other parameter `k`: common ones
   * always; the rest only for the creator, and member ENR slot k only when
   * k <= numOperators - 1, that subtraction wrapping as Go's int does.
   */
  predicate Visible(k: ParamKey, role: ClusterRole, numOperators: int) {
    if IsCommon(k) then true
    else if role != Creator then false
    else if k.OperatorEnrKey? then k.slot <= Pred64(numOperators)
    else true
  }

  /** The operator count the page works with: the parsed text, or 3 if it does not parse. */
  function OperatorCount(s: string): int {
    match Atoi(s)
    case Some(n) => n
    case None => 3
  }

  /** Whether `a` is `b` with some elements left out. */
  predicate IsSubsequence<T(==)>(a: seq<T>, b: seq<T>)
    decreases |b|
  {
    if a == [] then true
    else if b == [] then false
    else if a[|a| - 1] == b[|b| - 1] then IsSubsequence(a[..|a| - 1], b[..|b| - 1])
    else IsSubsequence(a, b[..|b| - 1])
  }

  lemma {:induction false} SubsequenceExtend<T>(a: seq<T>, b: seq<T>, x: T)
    requires IsSubsequence(a, b)
    ensures IsSubsequence(a, b + [x])
    decreases |a| + |b|, 1
  {
    assert (b + [x])[..|b|] == b;
    if a != [] && a[|a| - 1] == x {
      SubsequenceDropLast(a, b);
    }
  }

  lemma {:induction false} SubsequenceDropLast<T>(a: seq<T>, b: seq<T>)
    requires a != [] && IsSubsequence(a, b)
    ensures IsSubsequence(a[..|a| - 1], b)
    decreases |a| + |b|, 0
  {
    var b' := b[..|b| - 1];
    assert b' + [b[|b| - 1]] == b;
    if a[|a| - 1] == b[|b| - 1] {
      SubsequenceExtend(a[..|a| - 1], b', b[|b| - 1]);
    } else {
      SubsequenceDropLast(a, b');
      SubsequenceExtend(a[..|a| - 1], b', b[|b| - 1]);
    }
  }

  /** The other parameters `handleEnableChanged` draws, in the order of `keys`. */
  function FilterVisible(keys: seq<ParamKey>, role: ClusterRole, numOperators: int): (shown: seq<ParamKey>)
    ensures |shown| <= |keys|
  {
    if keys == [] then []
    else
      var last := keys[|keys| - 1];
      var front := FilterVisible(keys[..|keys| - 1], role, numOperators);
      if Visible(last, role, numOperators) then front + [last] else front
  }

  /** Filtering a non-empty list filters its front, then keeps or drops its last key. */
  lemma FilterStep(keys: seq<ParamKey>, role: ClusterRole, n: int)
    requires keys != []
    ensures FilterVisible(keys, role, n)
            == FilterVisible(keys[..|keys| - 1], role, n)
               + (if Visible(keys[|keys| - 1], role, n) then [keys[|keys| - 1]] else [])
  {
  }

  /**
   * The filter keeps a key exactly when it is in the list and visible for
   * the role and count, and the kept keys keep their order.
   */
  lemma {:induction false} FilterKeepsExactlyVisible(keys: seq<ParamKey>, role: ClusterRole, n: int)
    ensures forall k :: k in FilterVisible(keys, role, n) <==> k in keys && Visible(k, role, n)
    ensures IsSubsequence(FilterVisible(keys, role, n), keys)
    decreases |keys|
  {
    if keys != [] {
      var last := keys[|keys| - 1];
      var init := keys[..|keys| - 1];
      var front := FilterVisible(init, role, n);
      FilterStep(keys, role, n);
      FilterKeepsExactlyVisible(init, role, n);
      assert keys == init + [last];
      SubsequenceExtend(front, init, last);
      if Visible(last, role, n) {
        assert (front + [last])[..|front|] == front;
        assert init + [last] == keys;
      }
    }
  }

  /** Filtering a concatenation filters each part. */
  lemma {:induction false} FilterAppend(a: seq<ParamKey>, b: seq<ParamKey>, role: ClusterRole, n: int)
    ensures FilterVisible(a + b, role, n) == FilterVisible(a, role, n) + FilterVisible(b, role, n)
    decreases |b|
  {
    if b != [] {
      var b' := b[..|b| - 1];
      assert (a + b)[..|a + b| - 1] == a + b' && (a + b)[|a + b| - 1] == b[|b| - 1];
      FilterStep(a + b, role, n);
      FilterStep(b, role, n);
      FilterAppend(a, b', role, n);
    } else {
      assert a + b == a;
    }
  }

  /** `m` clamped into 0..j. */
  function Clamp(m: int, j: nat): (c: nat)
    ensures c <= j && (0 <= m <= j ==> c == m)
  {
    if m < 0 then 0 else if m < j then m else j
  }

  /** The member ENR slots a creator is shown out of slots 1..j; a member is shown none. */
  function ShownEnrKeys(j: nat, role: ClusterRole, n: int): seq<ParamKey> {
    if role == Member then [] else EnrKeys(Clamp(Pred64(n), j))
  }

  /** Slot j's contribution to the filtered slots 1..j. */
  function SlotIfVisible(j: nat, role: ClusterRole, n: int): seq<ParamKey> {
    if Visible(OperatorEnrKey(j), role, n) then [OperatorEnrKey(j)] else []
  }

  /** Filtering slots 1..j filters slots 1..j-1, then keeps or drops slot j. */
  lemma FilterEnrStep(j: nat, role: ClusterRole, n: int)
    requires j > 0
    ensures FilterVisible(EnrKeys(j), role, n) == FilterVisible(EnrKeys(j - 1), role, n) + SlotIfVisible(j, role, n)
  {
    FilterStep(EnrKeys(j), role, n);
    assert EnrKeys(j)[..j - 1] == EnrKeys(j - 1);
  }

  /** The slots a creator sees grow by slot j exactly when slot j is visible. */
  lemma ShownEnrStep(j: nat, role: ClusterRole, n: int)
    requires j > 0
    ensures ShownEnrKeys(j, role, n) == ShownEnrKeys(j - 1, role, n) + SlotIfVisible(j, role, n)
  {
    var m := Pred64(n);
    if role == Creator && j <= m {
      assert Clamp(m, j) == j && Clamp(m, j - 1) == j - 1;
      assert EnrKeys(j - 1) + [OperatorEnrKey(j)] == EnrKeys(j);
    } else if role == Creator {
      assert Clamp(m, j) == Clamp(m, j - 1);
    }
  }

  /** The member ENR slots 1..j the filter keeps: the first min(j, numOperators - 1) for a creator, none for a member. */
  lemma {:induction false} FilterEnrSlots(j: nat, role: ClusterRole, n: int)
    ensures FilterVisible(EnrKeys(j), role, n) == if role == Member then [] else EnrKeys(Clamp(Pred64(n), j))
  {
    if j > 0 {
      FilterEnrSlots(j - 1, role, n);
      FilterEnrStep(j, role, n);
      ShownEnrStep(j, role, n);
    }
  }

  /** What the form shows, given the other parameters the page holds. */
  function Drawn(cfg: ObolConfig, others: seq<ParamKey>): (form: seq<ParamKey>)
    requires WellTyped(cfg)
  {
    if !IsEnabled(cfg) then [EnabledKey]
    else [EnabledKey, ClusterRoleKey] + FilterVisible(others, RoleOf(cfg), OperatorCount(NumOperatorsOf(cfg)))
  }

  /** What the settings page shows for a config, top to bottom. */
  function ShownKeys(cfg: ObolConfig): (form: seq<ParamKey>)
    requires WellTyped(cfg)
  {
    Drawn(cfg, OtherKeys())
  }

  // ---------------------------------------------------------------------
  // What the page shows.

  /** With the add-on disabled the form is the enabled box alone. */
  lemma DisabledShowsOnlyEnabled(cfg: ObolConfig)
    requires WellTyped(cfg) && !IsEnabled(cfg)
    ensures ShownKeys(cfg) == [EnabledKey]
  {
  }

  /**
   * With the add-on enabled the form starts with the enabled box and the
   * role box, and the rest keeps the GetParameters order with those two
   * removed.
   */
  lemma EnabledShowsRoleThenOthersInOrder(cfg: ObolConfig)
    requires WellTyped(cfg) && IsEnabled(cfg)
    ensures |ShownKeys(cfg)| >= 2 && ShownKeys(cfg)[..2] == [EnabledKey, ClusterRoleKey]
    ensures IsSubsequence(ShownKeys(cfg)[2..], OtherKeys())
  {
    var rest := FilterVisible(OtherKeys(), RoleOf(cfg), OperatorCount(NumOperatorsOf(cfg)));
    FilterKeepsExactlyVisible(OtherKeys(), RoleOf(cfg), OperatorCount(NumOperatorsOf(cfg)));
    assert ShownKeys(cfg)[2..] == rest;
  }

  /** The tag, the port and the definition URL are shown to both roles. */
  lemma CommonShownForBothRoles(cfg: ObolConfig)
    requires WellTyped(cfg) && IsEnabled(cfg)
    ensures ContainerTagKey in ShownKeys(cfg) && P2PPortKey in ShownKeys(cfg)
    ensures ClusterDefinitionUrlKey in ShownKeys(cfg)
  {
    FilterKeepsExactlyVisible(OtherKeys(), RoleOf(cfg), OperatorCount(NumOperatorsOf(cfg)));
    assert OtherKeys()[0] == ContainerTagKey && OtherKeys()[1] == P2PPortKey;
    assert OtherKeys()[14] == ClusterDefinitionUrlKey;
  }

  /** The creator-only parameters ahead of the ENR slots. */
  const CreatorHead: seq<ParamKey> := [ContainerTagKey, P2PPortKey, ClusterNameKey, NumValidatorsKey, NumOperatorsKey]

  lemma OtherKeysSplit()
    ensures OtherKeys() == CreatorHead + EnrKeys(EnrSlots) + [ClusterDefinitionUrlKey]
  {
  }

  lemma FilterSingle(k: ParamKey, role: ClusterRole, n: int)
    ensures FilterVisible([k], role, n) == if Visible(k, role, n) then [k] else []
  {
    assert [k][..0] == [];
  }

  /** The filter keeps a list whose every key is visible, and drops one whose every key is hidden. */
  lemma {:induction false} FilterAllOrNone(keys: seq<ParamKey>, role: ClusterRole, n: int)
    ensures (forall i :: 0 <= i < |keys| ==> Visible(keys[i], role, n)) ==> FilterVisible(keys, role, n) == keys
    ensures (forall i :: 0 <= i < |keys| ==> !Visible(keys[i], role, n)) ==> FilterVisible(keys, role, n) == []
    decreases |keys|
  {
    if keys != [] {
      var front := keys[..|keys| - 1];
      var last := keys[|keys| - 1];
      FilterAllOrNone(front, role, n);
      assert front + [last] == keys;
      if forall i :: 0 <= i < |keys| ==> Visible(keys[i], role, n) {
        assert forall i :: 0 <= i < |front| ==> front[i] == keys[i];
        assert FilterVisible(front, role, n) == front;
        assert Visible(last, role, n);
      }
      if forall i :: 0 <= i < |keys| ==> !Visible(keys[i], role, n) {
        assert forall i :: 0 <= i < |front| ==> front[i] == keys[i];
        assert FilterVisible(front, role, n) == [];
        assert !Visible(last, role, n);
      }
    }
  }

  /** The tag and the port are kept for either role. */
  lemma FilterCommonPair(role: ClusterRole, n: int)
    ensures FilterVisible([ContainerTagKey, P2PPortKey], role, n) == [ContainerTagKey, P2PPortKey]
  {
    FilterAllOrNone([ContainerTagKey, P2PPortKey], role, n);
  }

  /** A member drops the cluster name and the two counts. */
  lemma FilterCountsMember(n: int)
    ensures FilterVisible([ClusterNameKey, NumValidatorsKey, NumOperatorsKey], Member, n) == []
  {
    FilterAllOrNone([ClusterNameKey, NumValidatorsKey, NumOperatorsKey], Member, n);
  }

  /** A member keeps only the two common parameters of the head. */
  lemma FilterHeadMember(n: int)
    ensures FilterVisible(CreatorHead, Member, n) == [ContainerTagKey, P2PPortKey]
  {
    assert CreatorHead == [ContainerTagKey, P2PPortKey] + [ClusterNameKey, NumValidatorsKey, NumOperatorsKey];
    FilterAppend([ContainerTagKey, P2PPortKey], [ClusterNameKey, NumValidatorsKey, NumOperatorsKey], Member, n);
    FilterCommonPair(Member, n);
    FilterCountsMember(n);
  }

  /** The clamp of Go's n - 1 into 0..9 that decides how many member ENR slots a creator sees. */
  function ShownSlots(n: int): (slots: nat)
    ensures slots <= EnrSlots
    ensures 0 < n - 1 <= EnrSlots ==> slots == n - 1
    ensures n <= 1 && n != MinInt64 ==> slots == 0
    ensures n >= EnrSlots + 1 || n == MinInt64 ==> slots == EnrSlots
  {
    Clamp(Pred64(n), EnrSlots)
  }

  /** Filtering the other parameters filters the head, the member ENR slots and the URL apart. */
  lemma FilterOthersSplit(role: ClusterRole, n: int)
    ensures FilterVisible(OtherKeys(), role, n)
            == FilterVisible(CreatorHead, role, n) + FilterVisible(EnrKeys(EnrSlots), role, n)
               + FilterVisible([ClusterDefinitionUrlKey], role, n)
  {
    OtherKeysSplit();
    FilterAppend(CreatorHead + EnrKeys(EnrSlots), [ClusterDefinitionUrlKey], role, n);
    FilterAppend(CreatorHead, EnrKeys(EnrSlots), role, n);
  }

  /** The definition URL is kept for either role. */
  lemma FilterUrl(role: ClusterRole, n: int)
    ensures FilterVisible([ClusterDefinitionUrlKey], role, n) == [ClusterDefinitionUrlKey]
  {
    FilterSingle(ClusterDefinitionUrlKey, role, n);
  }

  /** A creator keeps the whole head. */
  lemma FilterHeadCreator(n: int)
    ensures FilterVisible(CreatorHead, Creator, n) == CreatorHead
  {
    assert forall i :: 0 <= i < |CreatorHead| ==> Visible(CreatorHead[i], Creator, n);
    FilterAllOrNone(CreatorHead, Creator, n);
  }

  /** The other parameters a member sees, in order. */
  lemma OthersForMember(n: int)
    ensures FilterVisible(OtherKeys(), Member, n) == [ContainerTagKey, P2PPortKey, ClusterDefinitionUrlKey]
  {
    FilterOthersSplit(Member, n);
    FilterEnrSlots(EnrSlots, Member, n);
    FilterUrl(Member, n);
    FilterHeadMember(n);
  }

  /** The other parameters a creator sees, in order. */
  lemma OthersForCreator(n: int)
    ensures FilterVisible(OtherKeys(), Creator, n) == CreatorHead + EnrKeys(ShownSlots(n)) + [ClusterDefinitionUrlKey]
  {
    FilterOthersSplit(Creator, n);
    FilterEnrSlots(EnrSlots, Creator, n);
    FilterHeadCreator(n);
    FilterUrl(Creator, n);
  }

  /**
   * A member sees only the common parameters: no cluster name, validator
   * count, operator count or member ENR.
   */
  lemma MemberShowsCommonOnly(cfg: ObolConfig)
    requires WellTyped(cfg) && IsEnabled(cfg) && RoleOf(cfg) == Member
    ensures ShownKeys(cfg) == [EnabledKey, ClusterRoleKey, ContainerTagKey, P2PPortKey, ClusterDefinitionUrlKey]
  {
    OthersForMember(OperatorCount(NumOperatorsOf(cfg)));
  }

  /**
   * A creator with operator count n sees the tag, the port, the cluster
   * name, the validator count and the operator count, then member ENR
   * slots 1 to n - 1 (at most the nine there are, and all nine when n - 1
   * wraps round), then the definition URL.
   */
  lemma CreatorShows(cfg: ObolConfig)
    requires WellTyped(cfg) && IsEnabled(cfg) && RoleOf(cfg) == Creator
    ensures ShownKeys(cfg)
            == [EnabledKey, ClusterRoleKey] + CreatorHead
               + EnrKeys(ShownSlots(OperatorCount(NumOperatorsOf(cfg)))) + [ClusterDefinitionUrlKey]
  {
    OthersForCreator(OperatorCount(NumOperatorsOf(cfg)));
  }

  /** Member ENR slot k is on the form iff the add-on is enabled, the role is creator and k <= n - 1. */
  lemma EnrSlotShownIff(cfg: ObolConfig, k: nat)
    requires WellTyped(cfg) && 1 <= k <= EnrSlots
    ensures OperatorEnrKey(k) in ShownKeys(cfg) <==>
              IsEnabled(cfg) && RoleOf(cfg) == Creator && k <= Pred64(OperatorCount(NumOperatorsOf(cfg)))
  {
    FilterKeepsExactlyVisible(OtherKeys(), RoleOf(cfg), OperatorCount(NumOperatorsOf(cfg)));
    assert OtherKeys()[k + 4] == OperatorEnrKey(k);
  }

  /** An operator count that does not parse as an integer is taken as 3. */
  lemma UnparsedCountIsThree(s: string)
    ensures Atoi(s).None? ==> OperatorCount(s) == 3
    ensures Atoi(s).Some? ==> OperatorCount(s) == Atoi(s).value
  {
  }

  /**
   * The source picks the common parameters by ID, spots ENR parameters by
   * the "operatorENR" prefix and reads the slot from the ID's character
   * 11. On the table's other parameters these tests agree with the keys
   * and slots the model uses.
   */
  lemma IdTestsMatchKeys(i: nat)
    requires 2 <= i < |Keys()|
    ensures var k := Keys()[i];
      && HasKey(EnrSlots, k)
      && (Id(k) in CommonIds <==> IsCommon(k))
      && (HasPrefix(Id(k), "operatorENR") <==> k.OperatorEnrKey?)
      && (k.OperatorEnrKey? ==> |Id(k)| > 11 && Id(k)[11] as int - '0' as int == k.slot)
  {
    if 7 <= i < 16 {
      assert Keys()[i] == OperatorEnrKey(i - 6);
      EnrIdTests(i - 6);
    } else {
      IdOfKey(i);
      assert TableIds[i][0] != 'o';
    }
  }

  /** Member ENR slot k's ID has the prefix, is not common, and carries k at index 11. */
  lemma EnrIdTests(k: nat)
    requires 1 <= k <= EnrSlots
    ensures HasKey(EnrSlots, OperatorEnrKey(k))
    ensures var id := Id(OperatorEnrKey(k));
      && id !in CommonIds
      && HasPrefix(id, "operatorENR")
      && |id| > 11 && id[11] as int - '0' as int == k
  {
    OperatorEnrTable(k);
    assert ("operatorENR" + [DigitChar(k)])[..11] == "operatorENR";
  }

  /**
   * Only enabled, clusterRole and numOperators decide what is shown, which
   * is why those three, and no others, trigger a redraw.
   */
  lemma ShownDependsOnlyOnTriggers(cfg: ObolConfig, k: ParamKey, v: Value)
    requires WellTyped(cfg) && HasKey(EnrSlots, k)
    requires k != EnabledKey && k != ClusterRoleKey && k != NumOperatorsKey
    requires WellTyped(WithValue(cfg, k, v))
    ensures ShownKeys(WithValue(cfg, k, v)) == ShownKeys(cfg)
  {
  }

  // ---------------------------------------------------------------------
  // The page's filtering, step by step.

  /** Only the first two table IDs are those of enabled and clusterRole. */
  lemma SkippedIds()
    ensures forall j :: 0 <= j < |TableIds| ==> (TableIds[j] == TableIds[0] || TableIds[j] == TableIds[1] <==> j < 2)
  {
    IdsDistinct();
  }

  /**
   * The `otherParams` loop of createContent: every parameter whose ID is
   * neither the enabled nor the cluster-role ID, in GetParameters order.
   */
  method SelectOtherParams(o: Obol) returns (others: seq<ParamKey>)
    requires Valid(o.cfg)
    ensures others == OtherKeys()
  {
    var params := GetParameters(GetConfig(o));
    var keys := Keys();
    var enabledId := GetEnabledParameter(o).id;
    var roleId := GetConfig(o).clusterRole.id;
    ValidIds(o.cfg);
    assert enabledId == params[0].id && roleId == params[1].id;
    SkippedIds();
    others := [];
    var i := 0;
    while i < |params|
      invariant 0 <= i <= |params|
      invariant others == if i <= 2 then [] else keys[2..i]
    {
      if params[i].id != enabledId && params[i].id != roleId {
        assert i >= 2;
        assert keys[2..i + 1] == keys[2..i] + [keys[i]];
        others := others + [keys[i]];
      }
      i := i + 1;
    }
  }

  /** The drawing part of handleEnableChanged: what goes on the form, in order. */
  method DrawForm(o: Obol, others: seq<ParamKey>) returns (form: seq<ParamKey>)
    requires WellTyped(o.cfg)
    ensures form == Drawn(o.cfg, others)
  {
    form := [EnabledKey];
    if GetEnabledParameter(o).value == BoolValue(false) {
      return;
    }
    form := form + [ClusterRoleKey];
    var role := RoleOf(GetConfig(o));
    var numOperators := 3;
    var parsed := Atoi(NumOperatorsOf(GetConfig(o)));
    if parsed.Some? {
      numOperators := parsed.value;
    }
    var toShow: seq<ParamKey> := [];
    var i := 0;
    while i < |others|
      invariant 0 <= i <= |others|
      invariant toShow == FilterVisible(others[..i], role, numOperators)
    {
      var k := others[i];
      assert others[..i + 1][..i] == others[..i];
      if IsCommon(k) {
        toShow := toShow + [k];
      } else if role == Creator {
        if k.OperatorEnrKey? {
          if k.slot <= Pred64(numOperators) {
            toShow := toShow + [k];
          }
        } else {
          toShow := toShow + [k];
        }
      }
      i := i + 1;
    }
    assert others[..i] == others;
    form := form + toShow;
  }

  /**
   * The page: the add-on whose config the form edits, the other parameters
   * as createContent collected them, what the form shows and how many times
   * it has been rebuilt.
   */
  class ObolPage {
    var addon: Obol
    var otherParams: seq<ParamKey>
    var form: seq<ParamKey>
    var redraws: nat

    /** The config is valid and the form shows what its values call for. */
    ghost predicate Consistent()
      reads this
    {
      Valid(addon.cfg) && otherParams == OtherKeys() && form == ShownKeys(addon.cfg)
    }

    /** NewAddonObolPage / createContent, ending with the initial draw. */
    constructor (addon: Obol)
      requires Valid(addon.cfg)
      ensures Consistent() && this.addon == addon && redraws == 1
    {
      var others := SelectOtherParams(addon);
      var f := DrawForm(addon, others);
      this.addon := addon;
      otherParams := others;
      form := f;
      redraws := 1;
    }

    /** handleEnableChanged: rebuild the form from the current values. */
    method HandleEnableChanged()
      requires Valid(addon.cfg) && otherParams == OtherKeys()
      modifies this`form, this`redraws
      ensures form == ShownKeys(addon.cfg) && redraws == old(redraws) + 1
    {
      form := DrawForm(addon, otherParams);
      redraws := redraws + 1;
    }

    /** The enabled checkbox's callback. */
    method OnEnabledChanged(checked: bool)
      requires Consistent()
      modifies this
      ensures Consistent() && otherParams == old(otherParams)
      ensures old(addon.cfg.enabled.value) == BoolValue(checked) ==>
                addon == old(addon) && redraws == old(redraws)
      ensures old(addon.cfg.enabled.value) != BoolValue(checked) ==>
                addon == SetEnabledValue(old(addon), BoolValue(checked)) && redraws == old(redraws) + 1
    {
      if GetEnabledParameter(addon).value == BoolValue(checked) {
        return;
      }
      WithValueKeepsValid(addon.cfg, EnabledKey, BoolValue(checked));
      addon := SetEnabledValue(addon, BoolValue(checked));
      HandleEnableChanged();
    }

    /** The cluster-role drop-down's callback for the option at `index`. */
    method OnClusterRoleSelected(index: nat)
      requires Consistent() && index < |addon.cfg.clusterRole.options|
      modifies this
      ensures Consistent() && otherParams == old(otherParams)
      ensures var v := old(addon.cfg.clusterRole.options[index].value);
        && (old(addon.cfg.clusterRole.value) == v ==> addon == old(addon) && redraws == old(redraws))
        && (old(addon.cfg.clusterRole.value) != v ==>
              addon == Obol(WithValue(old(addon.cfg), ClusterRoleKey, v)) && redraws == old(redraws) + 1)
    {
      var v := addon.cfg.clusterRole.options[index].value;
      if addon.cfg.clusterRole.value == v {
        return;
      }
      OptionsWellTyped(addon.cfg);
      WithValueKeepsValid(addon.cfg, ClusterRoleKey, v);
      addon := Obol(WithValue(addon.cfg, ClusterRoleKey, v));
      HandleEnableChanged();
    }

    /** The operator-count drop-down's callback for the option at `index`. */
    method OnNumOperatorsSelected(index: nat)
      requires Consistent() && index < |addon.cfg.numOperators.options|
      modifies this
      ensures Consistent() && otherParams == old(otherParams)
      ensures var v := old(addon.cfg.numOperators.options[index].value);
        && (old(addon.cfg.numOperators.value) == v ==> addon == old(addon) && redraws == old(redraws))
        && (old(addon.cfg.numOperators.value) != v ==>
              addon == Obol(WithValue(old(addon.cfg), NumOperatorsKey, v)) && redraws == old(redraws) + 1)
    {
      var v := addon.cfg.numOperators.options[index].value;
      if addon.cfg.numOperators.value == v {
        return;
      }
      OptionsWellTyped(addon.cfg);
      WithValueKeepsValid(addon.cfg, NumOperatorsKey, v);
      addon := Obol(WithValue(addon.cfg, NumOperatorsKey, v));
      HandleEnableChanged();
    }
  }
}
