// FahXmlProcessor.processProjectXml: the whole project document, section by section.

module ProjectXml {
  import opened Wrappers
  import opened JavaLang
  import opened Project
  import opened ChannelFactories
  import opened XmlProcessor
  import opened ProjectLoad

  /**
   * The exception the definitions (sysap values, config values, strings and
   * function definitions) stop with, each section up to its first failing
   * entry; a document without function definitions dereferences null.
   */
  function DefinitionsFailure(x: PxProject): Option<Exception> {
    if FirstWhere(x.sysapValues, NameIsNull) < |x.sysapValues| then Some(NullPointerException)
    else if FirstWhere(x.configValues, NameIsNull) < |x.configValues| then Some(NullPointerException)
    else if FirstWhere(x.strings, StringFails) < |x.strings| then
      Some(StringEntry(x.strings[FirstWhere(x.strings, StringFails)]).ex)
    else if x.fahDefinitions.None? then Some(NullPointerException)
    else if FirstWhere(x.fahDefinitions.value, FunctionFails) < |x.fahDefinitions.value| then
      Some(FunctionFailure(x.fahDefinitions.value[FirstWhere(x.fahDefinitions.value, FunctionFails)]))
    else None
  }

  /** The exception the floors and then the devices stop with. */
  function LayoutFailure(xfs: seq<PxFloor>, xds: seq<PxDevice>): Option<Exception> {
    if FirstWhere(xfs, FloorFails) < |xfs| then Some(NullPointerException) else DevicesFailure(xds)
  }

  /** The exception processProjectXml stops with: the sections run in document order. */
  function LoadFailure(x: PxProject): Option<Exception> {
    if DefinitionsFailure(x).Some? then DefinitionsFailure(x) else LayoutFailure(x.floors, x.devices)
  }

  /** Every sysap and config value is named, every string and function id parses, and the definitions are present. */
  predicate DefinitionsWellFormed(x: PxProject) {
    (forall j :: 0 <= j < |x.sysapValues| ==> x.sysapValues[j].name.Some?)
    && (forall j :: 0 <= j < |x.configValues| ==> x.configValues[j].name.Some?)
    && (forall j :: 0 <= j < |x.strings| ==> ParseIdUnboxed(x.strings[j].nameId).Ok?)
    && x.fahDefinitions.Some?
    && (forall j :: 0 <= j < |x.fahDefinitions.value| ==>
          ParseIdUnboxed(x.fahDefinitions.value[j].functionId).Ok? && ParseIdUnboxed(x.fahDefinitions.value[j].nameId).Ok?)
  }

  /** Every floor and room has a uid, and every device entry loads. */
  predicate LayoutWellFormed(xfs: seq<PxFloor>, xds: seq<PxDevice>) {
    (forall j :: 0 <= j < |xfs| ==> xfs[j].uid.Some? && forall i :: 0 <= i < |xfs[j].rooms| ==> xfs[j].rooms[i].uid.Some?)
    && (forall j :: 0 <= j < |xds| ==> DeviceFailure(xds[j]).None?)
  }

  /** FirstWhere reaches the end exactly when no element stops the scan. */
  lemma FirstWhereEnd<T>(xs: seq<T>, throws: T -> bool)
    ensures FirstWhere(xs, throws) == |xs| <==> forall j :: 0 <= j < |xs| ==> !throws(xs[j])
  {
    if FirstWhere(xs, throws) < |xs| {
      assert throws(xs[FirstWhere(xs, throws)]);
    }
  }

  /** The definitions fail exactly when one of their entries is malformed or they are missing. */
  lemma DefinitionsFailureWellFormed(x: PxProject)
    ensures DefinitionsFailure(x).None? <==> DefinitionsWellFormed(x)
  {
    FirstWhereEnd(x.sysapValues, NameIsNull);
    FirstWhereEnd(x.configValues, NameIsNull);
    FirstWhereEnd(x.strings, StringFails);
    if x.fahDefinitions.Some? {
      FirstWhereEnd(x.fahDefinitions.value, FunctionFails);
    }
  }

  /** The floors and devices fail exactly when a floor or room lacks a uid or a device entry does not load. */
  lemma LayoutFailureWellFormed(xfs: seq<PxFloor>, xds: seq<PxDevice>)
    ensures LayoutFailure(xfs, xds).None? <==> LayoutWellFormed(xfs, xds)
  {
    FirstWhereEnd(xfs, FloorFails);
  }

  /** A document loads exactly when every entry of every section is well formed. */
  lemma LoadFailureWellFormed(x: PxProject)
    ensures LoadFailure(x).None? <==> DefinitionsWellFormed(x) && LayoutWellFormed(x.floors, x.devices)
  {
    DefinitionsFailureWellFormed(x);
    LayoutFailureWellFormed(x.floors, x.devices);
  }

  /** The devices each room starts the devices section with: what it held before, or none if just built. */
  function Carried(rooms: map<string, Room>, before: map<Room, set<Device>>): (m: map<Room, set<Device>>)
    ensures m.Keys == rooms.Values
  {
    map rm | rm in rooms.Values :: if rm in before then before[rm] else {}
  }

  /** After the floors, each room holds what it held before the load, or nothing if the floors built it. */
  twostate lemma RoomsCarried(new rooms: map<string, Room>, project: FahProject)
    requires forall rm :: rm in rooms.Values ==> rm in old(RoomsOf(project)) || (fresh(rm) && rm.devices == {})
    requires forall rm :: rm in old(RoomsOf(project)) ==> unchanged(rm`devices)
    ensures DevicesOf(rooms) == Carried(rooms, old(DevicesOf(project.roomByUid)))
  {
  }

  /** The rooms' devices stay as they were across a step that changes none of them. */
  twostate lemma DevicesOfKept(rooms: map<string, Room>)
    requires forall rm :: rm in rooms.Values ==> unchanged(rm`devices)
    ensures DevicesOf(rooms) == old(DevicesOf(rooms))
  {
  }

  /** The floors loaded stay loaded across a step that changes none of them, their rooms' names or the floor and room indexes. */
  twostate lemma FloorsKept(new xfs: seq<PxFloor>,
                            loaded: (FahProject, map<string, Floor>, map<string, Room>, seq<Floor>, seq<seq<Room>>))
    requires old(FloorsLoaded(xfs, loaded.0, loaded.1, loaded.2, loaded.3, loaded.4))
    requires old((loaded.0.floorByUid, loaded.0.roomByUid)) == (loaded.0.floorByUid, loaded.0.roomByUid)
    requires forall f :: f in loaded.3 ==> unchanged(f)
    requires forall rs, rm :: rs in loaded.4 && rm in rs ==> unchanged(rm`name)
    ensures FloorsLoaded(xfs, loaded.0, loaded.1, loaded.2, loaded.3, loaded.4)
  {
  }

  /** The sysap values and then the config values of a document. */
  method ProcessValues(x: PxProject, project: FahProject) returns (r: Outcome<()>)
    modifies project`sysap, project`config
    ensures r.Throws? <==> FirstWhere(x.sysapValues, NameIsNull) < |x.sysapValues|
                           || FirstWhere(x.configValues, NameIsNull) < |x.configValues|
    ensures r.Throws? ==> r.ex == NullPointerException
    ensures r.Ok? ==> (project.sysap, project.config) ==
                      (PutValues(old(project.sysap), x.sysapValues), PutValues(old(project.config), x.configValues))
  {
    r := ProcessSysapValues(project, x.sysapValues);
    assert x.sysapValues[..|x.sysapValues|] == x.sysapValues;
    if r.Ok? {
      r := ProcessConfigValues(project, x.configValues);
      assert x.configValues[..|x.configValues|] == x.configValues;
    }
  }

  /** The strings and then the function definitions of a document. */
  method ProcessCatalog(x: PxProject, project: FahProject) returns (r: Outcome<()>)
    modifies project`stringByNameId, project`functionByFunctionId, project`floorByUid
    modifies project`roomByUid, project`deviceBySerialNumber, project`channelByName
    ensures ExceptionOf(r) ==
      if FirstWhere(x.strings, StringFails) < |x.strings| then Some(StringEntry(x.strings[FirstWhere(x.strings, StringFails)]).ex)
      else if x.fahDefinitions.None? then Some(NullPointerException)
      else if FirstWhere(x.fahDefinitions.value, FunctionFails) < |x.fahDefinitions.value| then
        Some(FunctionFailure(x.fahDefinitions.value[FirstWhere(x.fahDefinitions.value, FunctionFails)]))
      else None
    ensures (project.floorByUid, project.roomByUid, project.deviceBySerialNumber, project.channelByName) ==
            old((project.floorByUid, project.roomByUid, project.deviceBySerialNumber, project.channelByName))
    ensures r.Ok? ==> IndexStrings(old(project.stringByNameId), x.strings) == Ok(project.stringByNameId)
    ensures r.Ok? ==> x.fahDefinitions.Some?
                      && IndexFunctions(project.stringByNameId, old(project.functionByFunctionId), x.fahDefinitions.value)
                         == Ok(project.functionByFunctionId)
  {
    r := ProcessStrings(project, x.strings);
    if r.Ok? {
      if x.fahDefinitions.None? {
        r := Throws(NullPointerException);
      } else {
        r := ProcessFunctions(project, x.fahDefinitions.value);
      }
    }
  }

  /** The sysap values, config values, strings and function definitions of a document, in that order. */
  method ProcessDefinitions(x: PxProject, project: FahProject) returns (r: Outcome<()>)
    modifies project`sysap, project`config, project`stringByNameId, project`functionByFunctionId
    modifies project`floorByUid, project`roomByUid, project`deviceBySerialNumber, project`channelByName
    ensures ExceptionOf(r) == DefinitionsFailure(x)
    ensures (project.floorByUid, project.roomByUid, project.deviceBySerialNumber, project.channelByName) ==
            old((project.floorByUid, project.roomByUid, project.deviceBySerialNumber, project.channelByName))
    ensures r.Ok? ==> (project.sysap, project.config) ==
                      (PutValues(old(project.sysap), x.sysapValues), PutValues(old(project.config), x.configValues))
    ensures r.Ok? ==> IndexStrings(old(project.stringByNameId), x.strings) == Ok(project.stringByNameId)
    ensures r.Ok? ==> x.fahDefinitions.Some?
                      && IndexFunctions(project.stringByNameId, old(project.functionByFunctionId), x.fahDefinitions.value)
                         == Ok(project.functionByFunctionId)
  {
    r := ProcessValues(x, project);
    if r.Ok? {
      r := ProcessCatalog(x, project);
    }
  }

  /**
   * The outcome of the floors section, from the floor and room indexes
   * before: a floor built from each floor entry and a room from each room
   * entry, indexed by uid.
   */
  ghost predicate FloorsLoaded(xfs: seq<PxFloor>, project: FahProject, floorsBefore: map<string, Floor>,
                               roomsBefore: map<string, Room>, floors: seq<Floor>, rooms: seq<seq<Room>>)
    reads project, set f | f in floors, set rs, rm | rs in rooms && rm in rs :: rm
  {
    (forall j :: 0 <= j < |xfs| ==> !FloorFails(xfs[j]))
    && |floors| == |xfs| && |rooms| == |xfs| && RoomCounts(xfs, rooms) && AllFloorsBuilt(xfs, floors, rooms)
    && (project.floorByUid, project.roomByUid) ==
       (FloorIndex(floorsBefore, xfs, floors), FloorsRoomIndex(roomsBefore, xfs, rooms))
  }

  /**
   * The outcome of the floors and devices sections, from the floor, room,
   * device and channel indexes before and the rooms' devices held before:
   * the floors loaded; a device loaded from each device entry, indexed by
   * serial number and with its channels by name; and each room holding what
   * it held before (nothing, if just built) and the devices placed in it.
   */
  ghost predicate LayoutLoaded(xfs: seq<PxFloor>, xds: seq<PxDevice>, registry: Registry, project: FahProject,
                               before: (map<string, Floor>, map<string, Room>, map<string, Device>, map<string, Channel>),
                               held: map<Room, set<Device>>, floors: seq<Floor>, rooms: seq<seq<Room>>,
                               devices: seq<Device>, channels: seq<seq<Channel>>)
    reads project, set f | f in floors, set rs, rm | rs in rooms && rm in rs :: rm, set d | d in devices
    reads set cs, c | cs in channels && c in cs :: c, set rm | rm in project.roomByUid.Values
  {
    FloorsLoaded(xfs, project, before.0, before.1, floors, rooms)
    && DevicesLoaded(project.stringByNameId, project.functionByFunctionId, project.roomByUid, registry, project,
                     xds, devices, channels, before.2, before.3, project.deviceBySerialNumber, project.channelByName)
    && DevicesOf(project.roomByUid) == Placed(project.roomByUid, Carried(project.roomByUid, held), xds, devices)
  }

  /**
   * A layout loaded into a project without devices leaves its device index
   * consistent: each device under its own serial number, with its channels
   * keyed by their ids.
   */
  lemma LayoutConsistent(xfs: seq<PxFloor>, xds: seq<PxDevice>, registry: Registry, project: FahProject,
                         before: (map<string, Floor>, map<string, Room>, map<string, Device>, map<string, Channel>),
                         held: map<Room, set<Device>>, floors: seq<Floor>, rooms: seq<seq<Room>>,
                         devices: seq<Device>, channels: seq<seq<Channel>>)
    requires LayoutLoaded(xfs, xds, registry, project, before, held, floors, rooms, devices, channels)
    requires before.2 == map[]
    ensures IndexConsistent(project)
  {
    DeviceIndexConsistent(project.stringByNameId, project.functionByFunctionId, project.roomByUid, registry, project,
                          xds, devices, channels, before.2);
  }

  /** The devices section once the floors are loaded: the floors stay loaded and the devices join them. */
  method ProcessDevicesOnFloors(project: FahProject, registry: Registry, xfs: seq<PxFloor>, xds: seq<PxDevice>,
                                ghost before: (map<string, Floor>, map<string, Room>, map<string, Device>,
                                               map<string, Channel>),
                                ghost held: map<Room, set<Device>>, ghost floors: seq<Floor>, ghost rooms: seq<seq<Room>>)
    returns (r: Outcome<()>, ghost devices: seq<Device>, ghost channels: seq<seq<Channel>>)
    requires FloorsLoaded(xfs, project, before.0, before.1, floors, rooms)
    requires (project.deviceBySerialNumber, project.channelByName) == (before.2, before.3)
    requires DevicesOf(project.roomByUid) == Carried(project.roomByUid, held)
    modifies project`stringByNameId, project`functionByFunctionId, project`floorByUid
    modifies project`roomByUid, project`deviceBySerialNumber, project`channelByName, RoomsOf(project)`devices
    ensures ExceptionOf(r) == DevicesFailure(xds)
    ensures (project.stringByNameId, project.functionByFunctionId) ==
            old((project.stringByNameId, project.functionByFunctionId))
    ensures r.Ok? ==> LayoutLoaded(xfs, xds, registry, project, before, held, floors, rooms, devices, channels)
  {
    r, devices, channels := ProcessDevices(project, registry, xds);
    FloorsKept(xfs, (project, before.0, before.1, floors, rooms));
  }

  /**
   * The floors with their rooms, then the devices with their channels, each
   * device joining its room; before holds the floor, room, device and
   * channel indexes and held the rooms' devices at the start.
   */
  method ProcessLayout(project: FahProject, registry: Registry, xfs: seq<PxFloor>, xds: seq<PxDevice>,
                       ghost before: (map<string, Floor>, map<string, Room>, map<string, Device>, map<string, Channel>),
                       ghost held: map<Room, set<Device>>)
    returns (r: Outcome<()>, ghost floors: seq<Floor>, ghost rooms: seq<seq<Room>>,
             ghost devices: seq<Device>, ghost channels: seq<seq<Channel>>)
    requires (project.floorByUid, project.roomByUid, project.deviceBySerialNumber, project.channelByName) == before
    requires DevicesOf(project.roomByUid) == held
    modifies project`stringByNameId, project`functionByFunctionId, project`floorByUid
    modifies project`roomByUid, project`deviceBySerialNumber, project`channelByName, RoomsOf(project)`devices
    ensures ExceptionOf(r) == LayoutFailure(xfs, xds)
    ensures (project.stringByNameId, project.functionByFunctionId) ==
            old((project.stringByNameId, project.functionByFunctionId))
    ensures r.Ok? ==> LayoutLoaded(xfs, xds, registry, project, before, held, floors, rooms, devices, channels)
  {
    devices, channels := [], [];
    r, floors, rooms := ProcessFloors(project, xfs);
    if r.Ok? {
      RoomsCarried(project.roomByUid, project);
      r, devices, channels := ProcessDevicesOnFloors(project, registry, xfs, xds, before, held, floors, rooms);
    }
  }

  /**
   * processProjectXml on a parsed document: the sections in order, stopping
   * at the first exception. On success each index is the fold of its
   * section over what the project held before, and each room holds what it
   * held before (nothing, if the load built it) and the devices placed in it.
   */
  method ProcessProjectXml(x: PxProject, project: FahProject, registry: Registry)
    returns (r: Outcome<()>, ghost floors: seq<Floor>, ghost rooms: seq<seq<Room>>,
             ghost devices: seq<Device>, ghost channels: seq<seq<Channel>>)
    modifies project`sysap, project`config, project`stringByNameId, project`functionByFunctionId
    modifies project`floorByUid, project`roomByUid, project`deviceBySerialNumber, project`channelByName
    modifies RoomsOf(project)`devices
    ensures ExceptionOf(r) == LoadFailure(x)
    ensures r.Ok? ==> (project.sysap, project.config) ==
                      (PutValues(old(project.sysap), x.sysapValues), PutValues(old(project.config), x.configValues))
    ensures r.Ok? ==> IndexStrings(old(project.stringByNameId), x.strings) == Ok(project.stringByNameId)
    ensures r.Ok? ==> x.fahDefinitions.Some?
                      && IndexFunctions(project.stringByNameId, old(project.functionByFunctionId), x.fahDefinitions.value)
                         == Ok(project.functionByFunctionId)
    ensures r.Ok? ==> LayoutLoaded(x.floors, x.devices, registry, project,
                                   old((project.floorByUid, project.roomByUid, project.deviceBySerialNumber,
                                        project.channelByName)),
                                   old(DevicesOf(project.roomByUid)), floors, rooms, devices, channels)
  {
    floors, rooms, devices, channels := [], [], [], [];
    r := ProcessDefinitions(x, project);
    DevicesOfKept(project.roomByUid);
    if r.Ok? {
      r, floors, rooms, devices, channels :=
        ProcessLayout(project, registry, x.floors, x.devices,
                      old((project.floorByUid, project.roomByUid, project.deviceBySerialNumber, project.channelByName)),
                      old(DevicesOf(project.roomByUid)));
    }
  }
}
