// The channel factories and device processors FreeAtHome hands to the project
// loader: which concrete channel class a channel of a given function becomes,
// and what is done to each device once it is in the project.

module ChannelFactories {
  import opened Wrappers
  import opened JavaLang
  import opened Project
  import opened Things
  import opened FahChannelRules

  /** The constructor references registered as channel factories. */
  datatype Factory = SwitchFactory | DimmerFactory | BlindFactory | SceneFactory

  /** The channel class a factory builds, with its default data points. */
  function KindOf(f: Factory): (k: ChannelKind)
    ensures k != Unknown && k != Plain && k != SensorKind
  {
    match f
    case SwitchFactory => SwitchKind
    case DimmerFactory => DimmerKind
    case BlindFactory => BlindKind
    case SceneFactory => SceneKind
  }

  /** The method references registered as device processors. */
  datatype DeviceProcessor = SensorProcessor

  /**
   * The registrations: factories by FID name (a HashMap, so a null FID name
   * is a key like any other), factories by function id, and the processors
   * in registration order.
   */
  datatype Registry = Registry(
    byFidName: map<Option<string>, Factory>,
    byFunctionId: map<int, Factory>,
    processors: seq<DeviceProcessor>)

  /** What the FreeAtHome constructor registers. */
  const DefaultRegistry: Registry := Registry(
    map[Some(FidSwitchingActuator) := SwitchFactory,
        Some(FidDimmingActuator) := DimmerFactory,
        Some(FidBlindActuator) := BlindFactory,
        Some(FidShutterActuator) := BlindFactory],
    map[SceneFunctionId := SceneFactory],
    [SensorProcessor])

  /**
   * getChannelFactory: none for a null function; otherwise the factory
   * registered for its FID name, and only when there is none, the one
   * registered for its function id.
   */
  function GetChannelFactory(registry: Registry, fahFunction: Option<FahFunction>): (r: Option<Factory>)
    ensures fahFunction.None? ==> r.None?
    ensures fahFunction.Some? && fahFunction.value.fidName in registry.byFidName ==>
      r == Some(registry.byFidName[fahFunction.value.fidName])
    ensures fahFunction.Some? && fahFunction.value.fidName !in registry.byFidName ==>
      (r.Some? <==> fahFunction.value.functionId in registry.byFunctionId)
    ensures fahFunction.Some? && fahFunction.value.fidName !in registry.byFidName && r.Some? ==>
      r.value == registry.byFunctionId[fahFunction.value.functionId]
  {
    match fahFunction
    case None => None
    case Some(f) =>
      if f.fidName in registry.byFidName then Some(registry.byFidName[f.fidName])
      else if f.functionId in registry.byFunctionId then Some(registry.byFunctionId[f.functionId])
      else None
  }

  /** The class the channel factory lambda builds: the registered factory's, else FahUnknown. */
  function ChannelKindFor(registry: Registry, fahFunction: Option<FahFunction>): (k: ChannelKind)
    ensures GetChannelFactory(registry, fahFunction).None? <==> k == Unknown
    ensures GetChannelFactory(registry, fahFunction).Some? ==> k == KindOf(GetChannelFactory(registry, fahFunction).value)
  {
    match GetChannelFactory(registry, fahFunction)
    case None => Unknown
    case Some(f) => KindOf(f)
  }

  /**
   * The channel factory: build the channel of the class ChannelKindFor
   * names; building it registers it with its device.
   */
  method CreateChannel(registry: Registry, device: Device, id: string, fahFunction: Option<FahFunction>)
    returns (c: Channel)
    modifies device`channelsById
    ensures fresh(c)
    ensures c.device == device && c.id == id && c.fahFunction == fahFunction && c.kind == ChannelKindFor(registry, fahFunction)
    ensures c.dataPointValues == map[] && c.inputDataPoints == {} && c.name == None && c.project == None
    ensures device.channelsById == old(device.channelsById)[id := c]
  {
    c := new Channel(device, id, fahFunction, ChannelKindFor(registry, fahFunction));
  }

  /** With the default registrations a switch channel is made exactly for a switching actuator. */
  lemma {:induction false} DefaultSwitchFactory(f: FahFunction)
    ensures GetChannelFactory(DefaultRegistry, Some(f)) == Some(SwitchFactory) <==>
      f.fidName == Some(FidSwitchingActuator)
  {
  }

  /**
   * The default factories agree with the root FahChannel classification:
   * what is built as a switch, dimmer or blind is one by isSwitch, isDimmer
   * or isBlind, and what is built as a scene is one by isScene.
   */
  lemma DefaultFactoriesAgreeWithRoles(f: FahFunction)
    ensures GetChannelFactory(DefaultRegistry, Some(f)) == Some(SwitchFactory) ==> Qualifies(f, SwitchRole)
    ensures GetChannelFactory(DefaultRegistry, Some(f)) == Some(DimmerFactory) ==>
      Qualifies(f, DimmerRole) && Qualifies(f, SwitchRole)
    ensures GetChannelFactory(DefaultRegistry, Some(f)) == Some(BlindFactory) ==> Qualifies(f, BlindRole)
    ensures GetChannelFactory(DefaultRegistry, Some(f)) == Some(SceneFactory) ==> Qualifies(f, SceneRole)
  {
    var r := DefaultRegistry;
    if f.fidName in r.byFidName {
      assert f.fidName == Some(FidSwitchingActuator) || f.fidName == Some(FidDimmingActuator)
        || f.fidName == Some(FidBlindActuator) || f.fidName == Some(FidShutterActuator);
    }
  }

  /**
   * A function whose FID name is registered is never looked up by function
   * id: a scene id under a switching FID name still gives a switch.
   */
  lemma FidNameWins(registry: Registry, f: FahFunction)
    requires f.fidName in registry.byFidName && f.functionId in registry.byFunctionId
    ensures GetChannelFactory(registry, Some(f)) == Some(registry.byFidName[f.fidName])
  {
  }

  /** A function no registration covers, and a missing function, give a FahUnknown. */
  lemma UnregisteredIsUnknown(registry: Registry, fahFunction: Option<FahFunction>)
    requires fahFunction.Some? ==>
      fahFunction.value.fidName !in registry.byFidName && fahFunction.value.functionId !in registry.byFunctionId
    ensures ChannelKindFor(registry, fahFunction) == Unknown
  {
  }

  /** The processors in registration order, run on one device until one fails. */
  method RunProcessors(processors: seq<DeviceProcessor>, device: Device) returns (r: Outcome<()>)
    modifies device`channelsById, ProjectOf(device)`stringByNameId, ProjectOf(device)`functionByFunctionId
    modifies ProjectOf(device)`floorByUid, ProjectOf(device)`roomByUid, ProjectOf(device)`deviceBySerialNumber
    modifies ProjectOf(device)`channelByName
    ensures processors == [] ==> r == Ok(()) && device.channelsById == old(device.channelsById)
    ensures var args := SensorArgs(device.deviceId, device.ParameterValue("pm0000"));
      processors != [] && args != [] && device.project.None? ==> r == Throws(NullPointerException)
    ensures var args := SensorArgs(device.deviceId, device.ParameterValue("pm0000"));
      device.project.Some? ==>
        r == Ok(())
        && (processors != [] ==> forall k :: 0 <= k < |args| ==> SensorPresent(device, args[k]))
        && KeptOutside(device.channelsById, old(device.channelsById), SensorIds(args))
        && KeptOutside(device.project.value.channelByName, old(device.project.value.channelByName),
                       SensorNames(device.name, args))
        && device.project.value.Ix().(channels := map[]) == old(device.project.value.Ix()).(channels := map[])
  {
    var args := SensorArgs(device.deviceId, device.ParameterValue("pm0000"));
    var k := 0;
    while k < |processors|
      invariant 0 <= k <= |processors|
      invariant k == 0 ==> device.channelsById == old(device.channelsById)
      invariant k > 0 ==> args == [] || device.project.Some?
      invariant k > 0 && device.project.Some? ==> forall j :: 0 <= j < |args| ==> SensorPresent(device, args[j])
      invariant KeptOutside(device.channelsById, old(device.channelsById), SensorIds(args))
      invariant device.project.Some? ==>
        KeptOutside(device.project.value.channelByName, old(device.project.value.channelByName),
                    SensorNames(device.name, args))
      invariant device.project.Some? ==>
        device.project.value.Ix().(channels := map[]) == old(device.project.value.Ix()).(channels := map[])
    {
      ghost var ids := device.channelsById;
      ghost var names := if device.project.Some? then device.project.value.channelByName else map[];
      match processors[k] {
        case SensorProcessor =>
          var step := ProcessDeviceForSensors(device);
          if step.Throws? {
            return step;
          }
      }
      KeptOutsideTransitive(ids, old(device.channelsById), device.channelsById, SensorIds(args));
      if device.project.Some? {
        KeptOutsideTransitive(names, old(device.project.value.channelByName), device.project.value.channelByName,
                              SensorNames(device.name, args));
      }
      k := k + 1;
    }
    return Ok(());
  }

  /** Two changes confined to the same keys compose to one confined to them. */
  lemma KeptOutsideTransitive<V>(middle: map<string, V>, before: map<string, V>, now: map<string, V>,
                                 changed: set<string>)
    requires KeptOutside(middle, before, changed) && KeptOutside(now, middle, changed)
    ensures KeptOutside(now, before, changed)
  {
  }
}
