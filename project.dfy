// The in-memory home-automation project: floors holding rooms, rooms holding
// devices, devices holding channels, and the FahProject indexes through which
// everything is looked up. Every entity whose fields the client updates in
// place is a class; the plain holders FahString and FahFunction are values.
//
// Java's null is Option.None. The TreeMap indexes throw NullPointerException
// for a null key on both put and get; a null value is stored as it is.

module Project {
  import opened Wrappers
  import opened JavaLang
  import opened Communication

  /** FahString: a translated label with its numeric name id. */
  datatype FahString = FahString(id: int, value: Option<string>)

  /** FahFunction: a function id, its FID name ("FID_SwitchingActuator", ...) and its label. */
  datatype FahFunction = FahFunction(functionId: int, fidName: Option<string>, name: Option<FahString>)

  /**
   * Which concrete channel class a channel is, with the data point ids that
   * class was constructed with (the things/ subclasses of AbstractFahChannel;
   * Plain is the channel the project parser builds).
   */
  datatype ChannelKind =
    | Plain
    | Unknown
    | Switch(switchDp: string)
    | Dimmer(switchDp: string, dimDp: string)
    | Blind(blindDp: string, stopDp: string, moveStateDp: string, posStateDp: string)
    | Scene(activateDp: string)
    | Sensor(sensorDp: string)

  // ---------------------------------------------------------------------
  // The put-or-remove rule of setDataPoint and setParameter

  /** value != null ? map.put(id, value) : map.remove(id) */
  function PutOrRemove(m: map<string, string>, k: string, v: Option<string>): (r: map<string, string>)
    ensures v.Some? ==> k in r && r[k] == v.value
    ensures v.None? ==> k !in r
    ensures forall j :: j != k ==> (j in r <==> j in m) && (j in r ==> r[j] == m[j])
  {
    match v
    case None => m - {k}
    case Some(x) => m[k := x]
  }

  /** Writing the same value twice is writing it once. */
  lemma PutOrRemoveIdempotent(m: map<string, string>, k: string, v: Option<string>)
    ensures PutOrRemove(PutOrRemove(m, k, v), k, v) == PutOrRemove(m, k, v)
  {
  }

  /** Of two writes to the same id the later one decides. */
  lemma PutOrRemoveLastWins(m: map<string, string>, k: string, v: Option<string>, w: Option<string>)
    ensures PutOrRemove(PutOrRemove(m, k, v), k, w) == PutOrRemove(m, k, w)
  {
  }

  /** String concatenation of a possibly-null reference: null prints as "null". */
  function NullableText(s: Option<string>): string {
    match s
    case None => "null"
    case Some(t) => t
  }

  // ---------------------------------------------------------------------
  // Floors and rooms

  /** FahFloor: its room set is updated when a room is built on it. */
  class Floor {
    const uid: Option<string>
    var name: Option<string>
    var level: int
    var rooms: set<Room>

    constructor (uid: Option<string>)
      ensures this.uid == uid && name == None && level == 0 && rooms == {}
    {
      this.uid := uid;
      name := None;
      level := 0;
      rooms := {};
    }

    method AddRoom(room: Room)
      modifies this`rooms
      ensures rooms == old(rooms) + {room}
    {
      rooms := rooms + {room};
    }
  }

  /** FahRoom: fixed floor and uid, and the set of devices placed in it. */
  class Room {
    const floor: Floor
    const uid: Option<string>
    var name: Option<string>
    var devices: set<Device>

    /** Building a room registers it with its floor. */
    constructor (floor: Floor, uid: Option<string>)
      modifies floor`rooms
      ensures this.floor == floor && this.uid == uid && name == None && devices == {}
      ensures floor.rooms == old(floor.rooms) + {this}
    {
      this.floor := floor;
      this.uid := uid;
      name := None;
      devices := {};
      new;
      floor.AddRoom(this);
    }

    /** A set insert: adding a present device changes nothing. */
    method AddDevice(device: Device)
      modifies this`devices
      ensures devices == old(devices) + {device}
    {
      devices := devices + {device};
    }

    /** A set remove: only that device goes, and an absent one changes nothing. */
    method RemoveDevice(device: Device)
      modifies this`devices
      ensures devices == old(devices) - {device}
    {
      devices := devices - {device};
    }
  }

  // ---------------------------------------------------------------------
  // Devices and channels

  /** A device's own fields apart from its channels and its project, as one value. */
  datatype DeviceHeader = DeviceHeader(
    serialNumber: Option<string>, typ: Option<FahString>, fahFunction: Option<FahFunction>, name: Option<string>,
    room: Option<Room>, deviceId: Option<string>, parameterValues: map<string, string>)

  /** FahDevice: channels by id, parameters, and the room it is placed in. */
  class Device {
    const serialNumber: Option<string>
    var channelsById: map<string, Channel>
    var parameterValues: map<string, string>
    var typ: Option<FahString>
    var deviceId: Option<string>
    var fahFunction: Option<FahFunction>
    var name: Option<string>
    var room: Option<Room>
    var project: Option<FahProject>

    constructor (serialNumber: Option<string>)
      ensures this.serialNumber == serialNumber && channelsById == map[] && parameterValues == map[]
      ensures typ == None && deviceId == None && fahFunction == None && name == None && room == None
      ensures project == None
    {
      this.serialNumber := serialNumber;
      channelsById := map[];
      parameterValues := map[];
      typ := None;
      deviceId := None;
      fahFunction := None;
      name := None;
      room := None;
      project := None;
    }

    function Header(): (h: DeviceHeader)
      reads this`typ, this`fahFunction, this`name, this`room, this`deviceId, this`parameterValues
      ensures h.serialNumber == serialNumber && h.typ == typ && h.fahFunction == fahFunction && h.name == name
      ensures h.room == room && h.deviceId == deviceId && h.parameterValues == parameterValues
    {
      DeviceHeader(serialNumber, typ, fahFunction, name, room, deviceId, parameterValues)
    }

    /** addChannel: keyed by the channel's id; a channel with the same id replaces the earlier one. */
    method AddChannel(channel: Channel)
      modifies this`channelsById
      ensures channelsById == old(channelsById)[channel.id := channel]
    {
      channelsById := channelsById[channel.id := channel];
    }

    /** getChannel: null for an id no channel has. */
    function GetChannel(channelId: string): (r: Option<Channel>)
      reads this
      ensures r.None? <==> channelId !in channelsById
      ensures r.Some? ==> r.value == channelsById[channelId] && r.value in channelsById.Values
    {
      if channelId in channelsById then Some(channelsById[channelId]) else None
    }

    /** getAllChannels: the channels in ascending id order (a TreeMap's values). */
    ghost function AllChannels(): (r: seq<Channel>)
      reads this
      ensures |r| == |channelsById|
      ensures forall i :: 0 <= i < |r| ==>
        SortedKeys(channelsById.Keys)[i] in channelsById && r[i] == channelsById[SortedKeys(channelsById.Keys)[i]]
    {
      var m := channelsById;
      var keys := SortedKeys(m.Keys);
      seq(|keys|, i requires 0 <= i < |keys| => m[keys[i]])
    }

    /** getParameterValue */
    function ParameterValue(parameterId: string): (r: Option<string>)
      reads this
      ensures r.Some? <==> parameterId in parameterValues
      ensures r.Some? ==> r.value == parameterValues[parameterId]
    {
      if parameterId in parameterValues then Some(parameterValues[parameterId]) else None
    }

    /** setParameter: a value is stored, null removes, other parameters stay. */
    method SetParameter(parameterId: string, value: Option<string>)
      modifies this`parameterValues
      ensures parameterValues == PutOrRemove(old(parameterValues), parameterId, value)
    {
      parameterValues := PutOrRemove(parameterValues, parameterId, value);
    }

    /**
     * setRoom: leave the previous room's set, take the new room, join its
     * set. Afterwards the device is in its room's set and, when the room
     * changed, no longer in the previous one.
     */
    method SetRoom(newRoom: Option<Room>)
      modifies this`room
      modifies (if room.Some? then {room.value} else {})`devices
      modifies (if newRoom.Some? then {newRoom.value} else {})`devices
      ensures room == newRoom
      ensures old(room).Some? && old(room) != newRoom ==>
        old(room).value.devices == old(room.value.devices) - {this}
      ensures newRoom.Some? ==> newRoom.value.devices == old(newRoom.value.devices) + {this}
      ensures newRoom.Some? ==> this in newRoom.value.devices
      ensures old(room).Some? && old(room) != newRoom ==> this !in old(room).value.devices
    {
      if room.Some? {
        room.value.RemoveDevice(this);
      }
      room := newRoom;
      if room.Some? {
        room.value.AddDevice(this);
      }
    }
  }

  /**
   * A channel of a device: AbstractFahChannel with its concrete subclass
   * recorded in kind, merged with the parser's project FahChannel (input
   * data point ids, a settable function).
   */
  class Channel {
    const device: Device
    const id: string
    const kind: ChannelKind
    var fahFunction: Option<FahFunction>
    var dataPointValues: map<string, string>
    var inputDataPoints: set<string>
    var name: Option<string>
    var project: Option<FahProject>

    /** Building a channel registers it with its device under its id. */
    constructor (device: Device, id: string, fahFunction: Option<FahFunction>, kind: ChannelKind)
      modifies device`channelsById
      ensures this.device == device && this.id == id && this.fahFunction == fahFunction && this.kind == kind
      ensures dataPointValues == map[] && inputDataPoints == {} && name == None && project == None
      ensures device.channelsById == old(device.channelsById)[id := this]
    {
      this.device := device;
      this.id := id;
      this.kind := kind;
      this.fahFunction := fahFunction;
      dataPointValues := map[];
      inputDataPoints := {};
      name := None;
      project := None;
      new;
      device.AddChannel(this);
    }

    /** getDataPointValue */
    function DataPointValue(dataPointId: string): (r: Option<string>)
      reads this
      ensures r.Some? <==> dataPointId in dataPointValues
      ensures r.Some? ==> r.value == dataPointValues[dataPointId]
    {
      if dataPointId in dataPointValues then Some(dataPointValues[dataPointId]) else None
    }

    /** setDataPoint: a value is cached, null removes the id, other ids stay. */
    method SetDataPoint(dataPointId: string, value: Option<string>)
      modifies this`dataPointValues
      ensures dataPointValues == PutOrRemove(old(dataPointValues), dataPointId, value)
      ensures DataPointValue(dataPointId) == value
    {
      dataPointValues := PutOrRemove(dataPointValues, dataPointId, value);
    }

    method SetName(name: Option<string>)
      modifies this`name
      ensures this.name == name
    {
      this.name := name;
    }

    /** The communication an RPC of this channel goes through, if it belongs to a project. */
    function Communications(): set<FahCommunication>
      reads this
    {
      if project.Some? then {project.value.communication} else {}
    }

    /**
     * rpcSetDataPoint: send RemoteInterface.setDatapoint with the path
     * serialNumber/id/dataPointId and the value, then cache the value. A
     * channel no project has taken yet has no communication to use.
     */
    method RpcSetDataPoint(dataPointId: string, value: string) returns (r: Outcome<()>)
      modifies this`dataPointValues, Communications()
      ensures project.None? ==> r == Throws(NullPointerException) && dataPointValues == old(dataPointValues)
      ensures project.Some? ==> r == Ok(())
      ensures project.Some? ==>
        project.value.communication.sent ==
          old(project.value.communication.sent) + [SetDatapointRequest(device.serialNumber, id, dataPointId, value)]
      ensures project.Some? ==> dataPointValues == old(dataPointValues)[dataPointId := value]
    {
      if project.None? {
        return Throws(NullPointerException);
      }
      project.value.communication.RpcCall("RemoteInterface.setDatapoint",
        [StringValue(DataPointPath(device.serialNumber, id, dataPointId)), StringValue(value)]);
      SetDataPoint(dataPointId, Some(value));
      return Ok(());
    }
  }

  /** serialNumber + "/" + channel id + "/" + data point id */
  function DataPointPath(serialNumber: Option<string>, channelId: string, dataPointId: string): (path: string)
    ensures path == NullableText(serialNumber) + ['/'] + channelId + ['/'] + dataPointId
  {
    NullableText(serialNumber) + "/" + channelId + "/" + dataPointId
  }

  /** The request rpcSetDataPoint sends. */
  function SetDatapointRequest(serialNumber: Option<string>, channelId: string, dataPointId: string,
                               value: string): RpcRequest
  {
    RpcRequest("RemoteInterface.setDatapoint", [StringValue(DataPointPath(serialNumber, channelId, dataPointId)),
                                                StringValue(value)])
  }

  // ---------------------------------------------------------------------
  // The project and its indexes

  /** A part handed to addPart. */
  datatype Part =
    | StringPart(s: FahString)
    | FunctionPart(f: FahFunction)
    | FloorPart(floor: Floor)
    | RoomPart(room: Room)
    | DevicePart(device: Device)
    | ChannelPart(channel: Channel)

  /** The lookup tables of a project. */
  datatype Indexes = Indexes(
    strings: map<int, FahString>,
    functions: map<int, FahFunction>,
    floors: map<string, Floor>,
    rooms: map<string, Room>,
    devices: map<string, Device>,
    channels: map<string, Channel>)

  /**
   * What addPart does to the indexes, given the name the part has when it is
   * added (only a channel's name can change). Strings and functions are keyed
   * by their ids, floors and rooms by uid, devices by serial number, each
   * replacing an earlier entry with that key; a null uid or serial number is
   * a NullPointerException from the TreeMap; a channel is indexed by name
   * only when it has one. No other table changes.
   */
  function IndexPart(ix: Indexes, part: Part, channelName: Option<string>): (r: Outcome<Indexes>)
    ensures part.StringPart? ==> r == Ok(ix.(strings := ix.strings[part.s.id := part.s]))
    ensures part.FunctionPart? ==> r == Ok(ix.(functions := ix.functions[part.f.functionId := part.f]))
    ensures part.FloorPart? ==>
      if part.floor.uid.None? then r == Throws(NullPointerException)
      else r == Ok(ix.(floors := ix.floors[part.floor.uid.value := part.floor]))
    ensures part.RoomPart? ==>
      if part.room.uid.None? then r == Throws(NullPointerException)
      else r == Ok(ix.(rooms := ix.rooms[part.room.uid.value := part.room]))
    ensures part.DevicePart? ==>
      if part.device.serialNumber.None? then r == Throws(NullPointerException)
      else r == Ok(ix.(devices := ix.devices[part.device.serialNumber.value := part.device]))
    ensures part.ChannelPart? ==>
      if channelName.None? then r == Ok(ix)
      else r == Ok(ix.(channels := ix.channels[channelName.value := part.channel]))
  {
    match part
    case StringPart(s) => Ok(ix.(strings := ix.strings[s.id := s]))
    case FunctionPart(f) => Ok(ix.(functions := ix.functions[f.functionId := f]))
    case FloorPart(floor) =>
      if floor.uid.None? then Throws(NullPointerException)
      else Ok(ix.(floors := ix.floors[floor.uid.value := floor]))
    case RoomPart(room) =>
      if room.uid.None? then Throws(NullPointerException)
      else Ok(ix.(rooms := ix.rooms[room.uid.value := room]))
    case DevicePart(device) =>
      if device.serialNumber.None? then Throws(NullPointerException)
      else Ok(ix.(devices := ix.devices[device.serialNumber.value := device]))
    case ChannelPart(channel) =>
      if channelName.None? then Ok(ix)
      else Ok(ix.(channels := ix.channels[channelName.value := channel]))
  }

  /** Adding the same part twice leaves the indexes as one add does. */
  lemma IndexPartIdempotent(ix: Indexes, part: Part, name: Option<string>)
    requires IndexPart(ix, part, name).Ok?
    ensures IndexPart(IndexPart(ix, part, name).value, part, name) == IndexPart(ix, part, name)
  {
    var once := IndexPart(ix, part, name).value;
    match part {
      case StringPart(s) => assert once.strings[s.id := s] == once.strings;
      case FunctionPart(f) => assert once.functions[f.functionId := f] == once.functions;
      case FloorPart(floor) => assert once.floors[floor.uid.value := floor] == once.floors;
      case RoomPart(room) => assert once.rooms[room.uid.value := room] == once.rooms;
      case DevicePart(device) => assert once.devices[device.serialNumber.value := device] == once.devices;
      case ChannelPart(channel) =>
        if name.Some? {
          assert once.channels[name.value := channel] == once.channels;
        }
    }
  }

  /** A later device with the same serial number replaces the earlier one. */
  lemma IndexPartLaterDeviceWins(ix: Indexes, d1: Device, d2: Device)
    requires d1.serialNumber.Some? && d1.serialNumber == d2.serialNumber
    ensures IndexPart(IndexPart(ix, DevicePart(d1), None).value, DevicePart(d2), None)
         == IndexPart(ix, DevicePart(d2), None)
  {
    var k := d1.serialNumber.value;
    assert ix.devices[k := d1][k := d2] == ix.devices[k := d2];
  }

  /** A channel without a name is not indexed, so getChannel cannot reach it. */
  lemma NamelessChannelNotIndexed(ix: Indexes, c: Channel)
    ensures IndexPart(ix, ChannelPart(c), None) == Ok(ix)
  {
  }

  /** FahProject */
  class FahProject {
    const communication: FahCommunication
    var sysap: map<string, Option<string>>
    var config: map<string, Option<string>>
    var stringByNameId: map<int, FahString>
    var functionByFunctionId: map<int, FahFunction>
    var floorByUid: map<string, Floor>
    var roomByUid: map<string, Room>
    var deviceBySerialNumber: map<string, Device>
    var channelByName: map<string, Channel>

    constructor (communication: FahCommunication)
      ensures this.communication == communication
      ensures sysap == map[] && config == map[]
      ensures Ix() == Indexes(map[], map[], map[], map[], map[], map[])
    {
      this.communication := communication;
      sysap := map[];
      config := map[];
      stringByNameId := map[];
      functionByFunctionId := map[];
      floorByUid := map[];
      roomByUid := map[];
      deviceBySerialNumber := map[];
      channelByName := map[];
    }

    /** The index fields as one value. */
    function Ix(): Indexes
      reads this
    {
      Indexes(stringByNameId, functionByFunctionId, floorByUid, roomByUid, deviceBySerialNumber, channelByName)
    }

    /**
     * addPart: the part's project becomes this project first, then the
     * matching index is updated as IndexPart says. The `parts` guard of the
     * code never fires, because nothing ever adds to that set.
     */
    method AddPart(part: Part) returns (r: Outcome<()>)
      modifies this`stringByNameId, this`functionByFunctionId, this`floorByUid, this`roomByUid
      modifies this`deviceBySerialNumber, this`channelByName
      modifies (if part.DevicePart? then {part.device} else {})`project
      modifies (if part.ChannelPart? then {part.channel} else {})`project
      ensures part.DevicePart? ==> part.device.project == Some(this)
      ensures part.ChannelPart? ==> part.channel.project == Some(this)
      ensures var next := IndexPart(old(Ix()), part, if part.ChannelPart? then part.channel.name else None);
        (next.Ok? ==> r == Ok(()) && Ix() == next.value)
        && (next.Throws? ==> r == Throws(next.ex) && Ix() == old(Ix()))
    {
      match part {
        case StringPart(s) =>
          stringByNameId := stringByNameId[s.id := s];
        case FunctionPart(f) =>
          functionByFunctionId := functionByFunctionId[f.functionId := f];
        case FloorPart(floor) =>
          if floor.uid.None? {
            return Throws(NullPointerException);
          }
          floorByUid := floorByUid[floor.uid.value := floor];
        case RoomPart(room) =>
          if room.uid.None? {
            return Throws(NullPointerException);
          }
          roomByUid := roomByUid[room.uid.value := room];
        case DevicePart(device) =>
          device.project := Some(this);
          if device.serialNumber.None? {
            return Throws(NullPointerException);
          }
          deviceBySerialNumber := deviceBySerialNumber[device.serialNumber.value := device];
        case ChannelPart(channel) =>
          channel.project := Some(this);
          if channel.name.Some? {
            channelByName := channelByName[channel.name.value := channel];
          }
      }
      return Ok(());
    }

    /** addSysap: stored by name, a later value replacing an earlier one. */
    method AddSysap(name: Option<string>, value: Option<string>) returns (r: Outcome<()>)
      modifies this`sysap
      ensures name.None? ==> r == Throws(NullPointerException) && sysap == old(sysap)
      ensures name.Some? ==> r == Ok(()) && sysap == old(sysap)[name.value := value]
    {
      if name.None? {
        return Throws(NullPointerException);
      }
      sysap := sysap[name.value := value];
      return Ok(());
    }

    /** addConfig: stored by name, a later value replacing an earlier one. */
    method AddConfig(name: Option<string>, value: Option<string>) returns (r: Outcome<()>)
      modifies this`config
      ensures name.None? ==> r == Throws(NullPointerException) && config == old(config)
      ensures name.Some? ==> r == Ok(()) && config == old(config)[name.value := value]
    {
      if name.None? {
        return Throws(NullPointerException);
      }
      config := config[name.value := value];
      return Ok(());
    }

    /** getChannel(name): null for an unknown name, NullPointerException for a null one. */
    function GetChannel(name: Option<string>): (r: Outcome<Option<Channel>>)
      reads this
      ensures name.None? <==> r.Throws?
      ensures r.Ok? ==> (r.value.Some? <==> name.value in channelByName)
      ensures r.Ok? && r.value.Some? ==> r.value.value == channelByName[name.value]
    {
      match name
      case None => Throws(NullPointerException)
      case Some(n) => Ok(if n in channelByName then Some(channelByName[n]) else None)
    }

    /** getRoomByUid(uid): null for an unknown uid, NullPointerException for a null one. */
    function GetRoomByUid(uid: Option<string>): (r: Outcome<Option<Room>>)
      reads this
      ensures uid.None? <==> r.Throws?
      ensures r.Ok? ==> (r.value.Some? <==> uid.value in roomByUid)
      ensures r.Ok? && r.value.Some? ==> r.value.value == roomByUid[uid.value]
    {
      match uid
      case None => Throws(NullPointerException)
      case Some(u) => Ok(if u in roomByUid then Some(roomByUid[u]) else None)
    }

    /** getDeviceBySerialNumber(serialNumber): null when unknown, NullPointerException for null. */
    function GetDeviceBySerialNumber(serialNumber: Option<string>): (r: Outcome<Option<Device>>)
      reads this
      ensures serialNumber.None? <==> r.Throws?
      ensures r.Ok? ==> (r.value.Some? <==> serialNumber.value in deviceBySerialNumber)
      ensures r.Ok? && r.value.Some? ==> r.value.value == deviceBySerialNumber[serialNumber.value]
    {
      match serialNumber
      case None => Throws(NullPointerException)
      case Some(s) => Ok(if s in deviceBySerialNumber then Some(deviceBySerialNumber[s]) else None)
    }

    /** getFunctionByFunctionId: null for an unknown id. */
    function GetFunctionByFunctionId(functionId: int): (r: Option<FahFunction>)
      reads this
      ensures r.Some? <==> functionId in functionByFunctionId
      ensures r.Some? ==> r.value == functionByFunctionId[functionId]
    {
      if functionId in functionByFunctionId then Some(functionByFunctionId[functionId]) else None
    }

    /** getStringByNameId: null for an unknown id. */
    function GetStringByNameId(nameId: int): (r: Option<FahString>)
      reads this
      ensures r.Some? <==> nameId in stringByNameId
      ensures r.Some? ==> r.value == stringByNameId[nameId]
    {
      if nameId in stringByNameId then Some(stringByNameId[nameId]) else None
    }

    /** getAllChannels: the named channels in ascending name order. */
    ghost function AllChannels(): (r: seq<Channel>)
      reads this
      ensures |r| == |channelByName|
      ensures forall i :: 0 <= i < |r| ==>
        SortedKeys(channelByName.Keys)[i] in channelByName && r[i] == channelByName[SortedKeys(channelByName.Keys)[i]]
    {
      var m := channelByName;
      var keys := SortedKeys(m.Keys);
      seq(|keys|, i requires 0 <= i < |keys| => m[keys[i]])
    }
  }
}
