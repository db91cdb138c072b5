// FreeAtHome: the client facade. It owns the channel-factory registrations
// and device processors handed to the project loader, the project currently
// loaded, and the lookups by channel name and class. The XMPP session, the
// settings download and the update listener are not modelled; the reply of
// RemoteInterface.getAll arrives as an already parsed document.

module FreeAtHomeClient {
  import opened Wrappers
  import opened JavaLang
  import opened Communication
  import opened Project
  import opened ChannelFactories
  import opened XmlProcessor
  import opened ProjectLoad
  import opened ProjectXml
  import opened FahChannelRules
  import opened FahCryptContext

  /** The classes getChannel(name, type) is called with. */
  datatype ChannelClass = AbstractChannelClass | SwitchClass | DimmerClass | BlindClass | SceneClass

  /** type.isInstance(channel): FahDimmer extends FahSwitch; every channel is an AbstractFahChannel. */
  predicate IsInstance(kind: ChannelKind, cls: ChannelClass) {
    match cls
    case AbstractChannelClass => true
    case SwitchClass => kind.Switch? || kind.Dimmer?
    case DimmerClass => kind.Dimmer?
    case BlindClass => kind.Blind?
    case SceneClass => kind.Scene?
  }

  /** The parameters of the getAll call loadAll makes: language "de" and three numbers. */
  const GetAllRequest: RpcRequest :=
    RpcRequest("RemoteInterface.getAll", [StringValue("de"), IntValue(4), IntValue(0), IntValue(0)])

  /**
   * connect's user check: the settings' users are a TreeMap, so a null user
   * name throws, and a name not among them is an illegal argument.
   */
  function SelectUser(users: map<string, FahUser>, username: Option<string>): (r: Outcome<FahUser>)
    ensures username.None? <==> r == Throws(NullPointerException)
    ensures username.Some? ==>
      (username.value !in users <==> r == Throws(IllegalArgumentException("Invalid username: " + username.value)))
    ensures r.Ok? <==> username.Some? && username.value in users
    ensures r.Ok? ==> r.value == users[username.value]
  {
    match username
    case None => Throws(NullPointerException)
    case Some(name) =>
      if name !in users then Throws(IllegalArgumentException("Invalid username: " + name)) else Ok(users[name])
  }

  class FreeAtHome {
    var channelFactoriesByFidName: map<Option<string>, Factory>
    var channelFactoriesByFunctionId: map<int, Factory>
    var deviceProcessors: seq<DeviceProcessor>
    const communication: FahCommunication
    var project: FahProject

    /** The registrations as the project loader sees them. */
    function Registrations(): Registry
      reads this`channelFactoriesByFidName, this`channelFactoriesByFunctionId, this`deviceProcessors
    {
      Registry(channelFactoriesByFidName, channelFactoriesByFunctionId, deviceProcessors)
    }

    /** The four FID names, the scene function id and the sensor processor; an empty project. */
    constructor ()
      ensures Registrations() == DefaultRegistry
      ensures fresh(communication) && communication.sent == []
      ensures fresh(project) && project.communication == communication
      ensures project.Ix() == Indexes(map[], map[], map[], map[], map[], map[])
    {
      var comm := new FahCommunication();
      communication := comm;
      channelFactoriesByFidName := map[];
      channelFactoriesByFunctionId := map[];
      deviceProcessors := [];
      project := new FahProject(comm);
      new;
      RegisterChannelFactoryForFidName(Some(FidSwitchingActuator), SwitchFactory);
      RegisterChannelFactoryForFidName(Some(FidDimmingActuator), DimmerFactory);
      RegisterChannelFactoryForFidName(Some(FidBlindActuator), BlindFactory);
      RegisterChannelFactoryForFidName(Some(FidShutterActuator), BlindFactory);
      RegisterChannelFactoryForFunctionId(SceneFunctionId, SceneFactory);
      RegisterDeviceProcessor(SensorProcessor);
    }

    /** A later registration under the same FID name replaces the earlier one. */
    method RegisterChannelFactoryForFidName(fidName: Option<string>, factory: Factory)
      modifies this`channelFactoriesByFidName
      ensures channelFactoriesByFidName == old(channelFactoriesByFidName)[fidName := factory]
    {
      channelFactoriesByFidName := channelFactoriesByFidName[fidName := factory];
    }

    /** A later registration under the same function id replaces the earlier one. */
    method RegisterChannelFactoryForFunctionId(functionId: int, factory: Factory)
      modifies this`channelFactoriesByFunctionId
      ensures channelFactoriesByFunctionId == old(channelFactoriesByFunctionId)[functionId := factory]
    {
      channelFactoriesByFunctionId := channelFactoriesByFunctionId[functionId := factory];
    }

    /** Processors run in the order they were registered. */
    method RegisterDeviceProcessor(processor: DeviceProcessor)
      modifies this`deviceProcessors
      ensures deviceProcessors == old(deviceProcessors) + [processor]
    {
      deviceProcessors := deviceProcessors + [processor];
    }

    /** The channelFactory lambda: the registered factory's class, else FahUnknown. */
    method ChannelFactory(device: Device, id: string, fahFunction: Option<FahFunction>) returns (c: Channel)
      modifies device`channelsById
      ensures fresh(c) && c.device == device && c.id == id && c.fahFunction == fahFunction
      ensures GetChannelFactory(Registrations(), fahFunction).None? ==> c.kind == Unknown
      ensures GetChannelFactory(Registrations(), fahFunction).Some? ==>
        c.kind == KindOf(GetChannelFactory(Registrations(), fahFunction).value)
      ensures device.channelsById == old(device.channelsById)[id := c]
    {
      c := CreateChannel(Registrations(), device, id, fahFunction);
    }

    /**
     * getChannel(name, type): the project's channel of that name when it is
     * an instance of type, else null; a null name throws (TreeMap).
     */
    function GetChannel(name: Option<string>, cls: ChannelClass): (r: Outcome<Option<Channel>>)
      reads this, project
      ensures name.None? <==> r.Throws?
      ensures r.Ok? ==>
        (r.value.Some? <==> name.value in project.channelByName && IsInstance(project.channelByName[name.value].kind, cls))
      ensures r.Ok? && r.value.Some? ==> r.value.value == project.channelByName[name.value]
    {
      match project.GetChannel(name)
      case Throws(e) => Throws(e)
      case Ok(channel) => if channel.Some? && IsInstance(channel.value.kind, cls) then Ok(channel) else Ok(None)
    }

    /**
     * loadAll: asks the SysAP for the project; when the reply holds a
     * document, a new project is loaded from it and replaces the current one
     * unless loading throws. A null reply keeps the current project.
     */
    method LoadAll(reply: Option<PxProject>)
      returns (r: Outcome<()>, ghost floors: seq<Floor>, ghost rooms: seq<seq<Room>>,
               ghost devices: seq<Device>, ghost channels: seq<seq<Channel>>)
      modifies this`project, communication
      ensures communication.sent == old(communication.sent) + [GetAllRequest]
      ensures reply.None? ==> r == Ok(()) && project == old(project)
      ensures reply.Some? ==> ExceptionOf(r) == LoadFailure(reply.value)
      ensures r.Throws? ==> project == old(project)
      ensures reply.Some? && r.Ok? ==> fresh(project) && project.communication == communication
      ensures reply.Some? && r.Ok? ==>
        ProjectLoaded(reply.value, Registrations(), project, floors, rooms, devices, channels)
    {
      floors, rooms, devices, channels := [], [], [], [];
      communication.RpcCall(GetAllRequest.methodName, GetAllRequest.parameters);
      if reply.None? {
        r := Ok(());
        return;
      }
      r, floors, rooms, devices, channels := Reload(reply.value);
    }

    /** The document of a reply: a new project loaded from it replaces the current one unless loading throws. */
    method Reload(x: PxProject)
      returns (r: Outcome<()>, ghost floors: seq<Floor>, ghost rooms: seq<seq<Room>>,
               ghost devices: seq<Device>, ghost channels: seq<seq<Channel>>)
      modifies this`project
      ensures ExceptionOf(r) == LoadFailure(x)
      ensures r.Throws? ==> project == old(project)
      ensures r.Ok? ==> fresh(project) && project.communication == communication
      ensures r.Ok? ==> ProjectLoaded(x, Registrations(), project, floors, rooms, devices, channels)
    {
      var registry := Registrations();
      var loaded;
      r, loaded, floors, rooms, devices, channels := LoadProject(x, communication, registry);
      if r.Ok? {
        project := loaded;
        assert Registrations() == registry;
      }
    }
  }

  /**
   * What a successful load into a new project leaves in it: the sysap and
   * config values, the strings and functions, and the layout, each folded
   * from nothing over its section.
   */
  ghost predicate ProjectLoaded(x: PxProject, registry: Registry, project: FahProject, floors: seq<Floor>,
                                rooms: seq<seq<Room>>, devices: seq<Device>, channels: seq<seq<Channel>>)
    reads project, set f | f in floors, set rs, rm | rs in rooms && rm in rs :: rm, set d | d in devices
    reads set cs, c | cs in channels && c in cs :: c, set rm | rm in project.roomByUid.Values
    reads set d | d in project.deviceBySerialNumber.Values
  {
    (forall j :: 0 <= j < |x.sysapValues| ==> !NameIsNull(x.sysapValues[j]))
    && (forall j :: 0 <= j < |x.configValues| ==> !NameIsNull(x.configValues[j]))
    && project.sysap == PutValues(map[], x.sysapValues) && project.config == PutValues(map[], x.configValues)
    && IndexStrings(map[], x.strings) == Ok(project.stringByNameId)
    && x.fahDefinitions.Some?
    && IndexFunctions(project.stringByNameId, map[], x.fahDefinitions.value) == Ok(project.functionByFunctionId)
    && LayoutLoaded(x.floors, x.devices, registry, project, (map[], map[], map[], map[]),
                    map[], floors, rooms, devices, channels)
    && IndexConsistent(project)
  }

  /** new FahProject(communication) then processProjectXml: the loaded project, or the exception. */
  method LoadProject(x: PxProject, communication: FahCommunication, registry: Registry)
    returns (r: Outcome<()>, project: FahProject, ghost floors: seq<Floor>, ghost rooms: seq<seq<Room>>,
             ghost devices: seq<Device>, ghost channels: seq<seq<Channel>>)
    ensures fresh(project) && project.communication == communication
    ensures ExceptionOf(r) == LoadFailure(x)
    ensures r.Ok? ==> ProjectLoaded(x, registry, project, floors, rooms, devices, channels)
  {
    project := new FahProject(communication);
    assert DevicesOf(project.roomByUid) == map[];
    r, floors, rooms, devices, channels := ProcessProjectXml(x, project, registry);
    if r.Ok? {
      LayoutConsistent(x.floors, x.devices, registry, project, (map[], map[], map[], map[]),
                       map[], floors, rooms, devices, channels);
    }
  }

  /** Registering a FID name twice keeps only the second factory. */
  lemma ReRegisteredFidNameReplaces(registry: Registry, f: FahFunction, first: Factory, second: Factory)
    ensures var twice := registry.(byFidName := registry.byFidName[f.fidName := first][f.fidName := second]);
      GetChannelFactory(twice, Some(f)) == Some(second)
  {
    var twice := registry.(byFidName := registry.byFidName[f.fidName := first][f.fidName := second]);
    assert f.fidName in twice.byFidName && twice.byFidName[f.fidName] == second;
  }

  /** Registering a function id twice keeps only the second factory, for a function whose FID name is not registered. */
  lemma ReRegisteredFunctionIdReplaces(registry: Registry, f: FahFunction, first: Factory, second: Factory)
    requires f.fidName !in registry.byFidName
    ensures var twice := registry.(byFunctionId := registry.byFunctionId[f.functionId := first][f.functionId := second]);
      GetChannelFactory(twice, Some(f)) == Some(second)
  {
    var twice := registry.(byFunctionId := registry.byFunctionId[f.functionId := first][f.functionId := second]);
    assert f.functionId in twice.byFunctionId && twice.byFunctionId[f.functionId] == second;
  }

  /** getSwitch also finds dimmers, and getChannel(name, AbstractFahChannel.class) is getChannel(name). */
  lemma DimmerIsSwitch(fah: FreeAtHome, name: string)
    requires name in fah.project.channelByName
    ensures fah.GetChannel(Some(name), DimmerClass).value.Some? ==> fah.GetChannel(Some(name), SwitchClass).value.Some?
    ensures fah.GetChannel(Some(name), AbstractChannelClass) == Ok(Some(fah.project.channelByName[name]))
  {
  }
}
