/**
 * The Obol add-on object (addons/obol/addon.go): a thin accessor over its
 * ObolConfig. Go hands out pointers into the config; here the add-on is a
 * value, and a write through the enabled parameter's pointer is the
 * function SetEnabledValue.
 */
module Addon {
  import opened Config

  datatype Obol = Obol(cfg: ObolConfig)

  /** `NewObol`: an add-on over a fresh table, every value at its default. */
  function NewObol(): (o: Obol)
    ensures Valid(o.cfg)
    ensures forall i :: 0 <= i < |Keys()| ==> GetParameters(o.cfg)[i].value == GetParameters(o.cfg)[i].defaultValue
  {
    NewConfigValid();
    Obol(NewConfig())
  }

  function GetName(o: Obol): string { "Obol DVT" }

  function GetConfig(o: Obol): ObolConfig { o.cfg }

  function GetContainerName(o: Obol): string { CharonContainerName }

  function GetContainerTag(o: Obol): string
    requires WellTyped(o.cfg)
  {
    ContainerTagOf(o.cfg)
  }

  function GetEnabledParameter(o: Obol): Parameter { o.cfg.enabled }

  function GetP2PPort(o: Obol): uint16
    requires WellTyped(o.cfg)
  {
    P2PPortOf(o.cfg)
  }

  /** Assigning `v` to the Value of the parameter GetEnabledParameter points at. */
  function SetEnabledValue(o: Obol, v: Value): (o': Obol)
    ensures |o'.cfg.operatorEnrs| == |o.cfg.operatorEnrs|
  {
    Obol(WithValue(o.cfg, EnabledKey, v))
  }

  /** The name and the container name are constants. */
  lemma AddonConstants(o: Obol)
    ensures GetName(o) == "Obol DVT"
    ensures GetContainerName(o) == "addon_charon"
    ensures GetConfigTitle(GetConfig(NewObol())) == "Obol Settings"
  {
  }

  /**
   * The accessors read the config's current values: the tag is the third
   * parameter's value, the port the fourth's, and the enabled parameter is
   * the first parameter itself.
   */
  lemma AccessorsReadConfig(o: Obol)
    requires Valid(o.cfg)
    ensures var ps := GetParameters(GetConfig(o));
      && StringValue(GetContainerTag(o)) == ps[2].value && ps[2].id == "containerTag"
      && Uint16Value(GetP2PPort(o)) == ps[3].value && ps[3].id == "p2pPort"
      && GetEnabledParameter(o) == ps[0]
  {
    assert Shape(o.cfg).containerTag == NewConfig().containerTag;
    assert Shape(o.cfg).p2pPort == NewConfig().p2pPort;
  }

  /**
   * GetEnabledParameter returns the config's own Enabled parameter: a value
   * written through it is what GetConfig then shows, and nothing else changes.
   */
  lemma EnabledWriteIsShared(o: Obol, v: Value)
    ensures GetEnabledParameter(SetEnabledValue(o, v)).value == v
    ensures GetConfig(SetEnabledValue(o, v)).enabled == GetEnabledParameter(o).(value := v)
    ensures forall k :: HasKey(|o.cfg.operatorEnrs|, k) && k != EnabledKey ==>
              Param(GetConfig(SetEnabledValue(o, v)), k) == Param(GetConfig(o), k)
  {
  }
}
