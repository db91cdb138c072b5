// The concrete channels: switches, dimmers, blinds, scenes and sensors. Their
// readings interpret the channel's cached data point values; their commands
// go through rpcSetDataPoint, whose only local effect is the cache update.
// Sensors are not announced by the access point: processDeviceForSensors
// creates them from a device's deviceId and its "pm0000" parameter.

module Things {
  import opened Wrappers
  import opened JavaLang
  import opened Communication
  import opened Project

  const DefaultSwitchDp: string := "idp0000"
  const DefaultDimDp: string := "idp0002"
  const DefaultBlindDp: string := "idp0000"
  const DefaultBlindStopDp: string := "idp0001"
  const DefaultBlindMoveStateDp: string := "odp0000"
  const DefaultBlindPosStateDp: string := "odp0001"
  const DefaultActivateDp: string := "odp0000"
  const DefaultSensorDp: string := "odp0000"

  /** What the three-argument constructors (FahSwitch::new, ...) build. */
  const SwitchKind: ChannelKind := Switch(DefaultSwitchDp)
  const DimmerKind: ChannelKind := Dimmer(DefaultSwitchDp, DefaultDimDp)
  const BlindKind: ChannelKind := Blind(DefaultBlindDp, DefaultBlindStopDp, DefaultBlindMoveStateDp, DefaultBlindPosStateDp)
  const SceneKind: ChannelKind := Scene(DefaultActivateDp)
  const SensorKind: ChannelKind := Sensor(DefaultSensorDp)

  /** FahDimmer extends FahSwitch: both have a switch data point. */
  predicate IsSwitchLike(k: ChannelKind) {
    k.Switch? || k.Dimmer?
  }

  /** An integer reading: 0 when the data point is absent, else Integer.parseInt of its value. */
  function Level(values: map<string, string>, dp: string): (r: Outcome<int>)
    ensures dp !in values ==> r == Ok(0)
    ensures dp in values ==> r == ParseInt(values[dp], 10)
    ensures r.Ok? ==> IsInt32(r.value)
  {
    if dp in values then ParseInt(values[dp], 10) else Ok(0)
  }

  /** Writing Integer.toString(n) and reading the level back gives n. */
  lemma LevelRoundTrip(values: map<string, string>, dp: string, n: int)
    requires IsInt32(n)
    ensures Level(values[dp := IntToString(n)], dp) == Ok(n)
  {
    ParseIntToString(n);
  }

  // ---------------------------------------------------------------------
  // FahSwitch

  /** isOn: the switch data point holds "1"; an absent value is off. */
  predicate IsOn(c: Channel)
    reads c
    requires IsSwitchLike(c.kind)
  {
    c.DataPointValue(c.kind.switchDp) == Some("1")
  }

  /** isOff is the negation of isOn. */
  predicate IsOff(c: Channel)
    reads c
    requires IsSwitchLike(c.kind)
  {
    !IsOn(c)
  }

  /** A switch with no cached state reads as off. */
  lemma AbsentSwitchStateIsOff(c: Channel)
    requires IsSwitchLike(c.kind) && c.kind.switchDp !in c.dataPointValues
    ensures IsOff(c) && !IsOn(c)
  {
  }

  /** The value setSwitchState writes. */
  function SwitchValue(state: bool): (v: string)
    ensures v == "1" <==> state
  {
    if state then "1" else "0"
  }

  /**
   * setSwitchState: "1" for on, "0" for off, to the switch data point.
   * Once the RPC is made the cache says the new state.
   */
  method SetSwitchState(c: Channel, state: bool) returns (r: Outcome<()>)
    requires IsSwitchLike(c.kind)
    modifies c`dataPointValues, c.Communications()
    ensures c.project.None? ==> r == Throws(NullPointerException) && c.dataPointValues == old(c.dataPointValues)
    ensures c.project.Some? ==> r == Ok(()) && IsOn(c) == state
    ensures c.project.Some? ==>
      c.dataPointValues == old(c.dataPointValues)[c.kind.switchDp := SwitchValue(state)]
    ensures c.project.Some? ==>
      c.project.value.communication.sent == old(c.project.value.communication.sent)
        + [SetDatapointRequest(c.device.serialNumber, c.id, c.kind.switchDp, SwitchValue(state))]
  {
    r := c.RpcSetDataPoint(c.kind.switchDp, SwitchValue(state));
  }

  /** switchOn: afterwards the switch is on. */
  method SwitchOn(c: Channel) returns (r: Outcome<()>)
    requires IsSwitchLike(c.kind)
    modifies c`dataPointValues, c.Communications()
    ensures c.project.None? ==> r == Throws(NullPointerException) && c.dataPointValues == old(c.dataPointValues)
    ensures c.project.Some? ==> r == Ok(()) && IsOn(c)
    ensures c.project.Some? ==> c.dataPointValues == old(c.dataPointValues)[c.kind.switchDp := "1"]
    ensures c.project.Some? ==>
      c.project.value.communication.sent == old(c.project.value.communication.sent)
        + [SetDatapointRequest(c.device.serialNumber, c.id, c.kind.switchDp, "1")]
  {
    r := SetSwitchState(c, true);
  }

  /** switchOff: afterwards the switch is off. */
  method SwitchOff(c: Channel) returns (r: Outcome<()>)
    requires IsSwitchLike(c.kind)
    modifies c`dataPointValues, c.Communications()
    ensures c.project.None? ==> r == Throws(NullPointerException) && c.dataPointValues == old(c.dataPointValues)
    ensures c.project.Some? ==> r == Ok(()) && IsOff(c)
    ensures c.project.Some? ==> c.dataPointValues == old(c.dataPointValues)[c.kind.switchDp := "0"]
    ensures c.project.Some? ==>
      c.project.value.communication.sent == old(c.project.value.communication.sent)
        + [SetDatapointRequest(c.device.serialNumber, c.id, c.kind.switchDp, "0")]
  {
    r := SetSwitchState(c, false);
  }

  /** toggle: the switch ends in the opposite of the state it was read in. */
  method Toggle(c: Channel) returns (r: Outcome<()>)
    requires IsSwitchLike(c.kind)
    modifies c`dataPointValues, c.Communications()
    ensures c.project.None? ==> r == Throws(NullPointerException) && c.dataPointValues == old(c.dataPointValues)
    ensures c.project.Some? ==> r == Ok(()) && IsOn(c) == !old(IsOn(c))
    ensures c.project.Some? ==>
      c.dataPointValues == old(c.dataPointValues)[c.kind.switchDp := SwitchValue(!old(IsOn(c)))]
    ensures c.project.Some? ==>
      c.project.value.communication.sent == old(c.project.value.communication.sent)
        + [SetDatapointRequest(c.device.serialNumber, c.id, c.kind.switchDp, SwitchValue(!old(IsOn(c))))]
  {
    r := SetSwitchState(c, !IsOn(c));
  }

  // ---------------------------------------------------------------------
  // FahDimmer

  /** getDimLevel: 0 when absent, else the parsed value. */
  function DimLevel(c: Channel): (r: Outcome<int>)
    reads c
    requires c.kind.Dimmer?
  {
    Level(c.dataPointValues, c.kind.dimDp)
  }

  function OutOfRangeMessage(level: int): string {
    "level not in range [0, 100]: " + IntToString(level)
  }

  /**
   * setDimLevel: a level outside [0, 100] is an IllegalArgumentException
   * and nothing is sent; otherwise its decimal string goes to the dim data
   * point only, and getDimLevel then returns the level.
   */
  method SetDimLevel(c: Channel, level: int) returns (r: Outcome<()>)
    requires c.kind.Dimmer?
    modifies c`dataPointValues, c.Communications()
    ensures !(0 <= level <= 100) ==>
      r == Throws(IllegalArgumentException(OutOfRangeMessage(level))) && c.dataPointValues == old(c.dataPointValues)
    ensures !(0 <= level <= 100) && c.project.Some? ==>
      c.project.value.communication.sent == old(c.project.value.communication.sent)
    ensures 0 <= level <= 100 && c.project.None? ==> r == Throws(NullPointerException) && c.dataPointValues == old(c.dataPointValues)
    ensures 0 <= level <= 100 && c.project.Some? ==> r == Ok(()) && DimLevel(c) == Ok(level)
    ensures 0 <= level <= 100 && c.project.Some? ==>
      c.dataPointValues == old(c.dataPointValues)[c.kind.dimDp := IntToString(level)]
    ensures 0 <= level <= 100 && c.project.Some? ==>
      c.project.value.communication.sent == old(c.project.value.communication.sent)
        + [SetDatapointRequest(c.device.serialNumber, c.id, c.kind.dimDp, IntToString(level))]
  {
    if level < 0 || level > 100 {
      return Throws(IllegalArgumentException(OutOfRangeMessage(level)));
    }
    r := c.RpcSetDataPoint(c.kind.dimDp, IntToString(level));
    LevelRoundTrip(old(c.dataPointValues), c.kind.dimDp, level);
  }

  // ---------------------------------------------------------------------
  // FahBlind

  /** getPosition: 0 when absent, else the parsed value, not clamped to 0..100. */
  function Position(c: Channel): (r: Outcome<int>)
    reads c
    requires c.kind.Blind?
  {
    Level(c.dataPointValues, c.kind.posStateDp)
  }

  /** Any 32-bit number, however far outside 0..100, is reported as the position. */
  lemma PositionNotClamped(c: Channel, n: int)
    requires c.kind.Blind? && IsInt32(n) && c.kind.posStateDp in c.dataPointValues
    requires c.dataPointValues[c.kind.posStateDp] == IntToString(n)
    ensures Position(c) == Ok(n)
  {
    ParseIntToString(n);
  }

  /** isMovingDown: the move state is "3". */
  predicate IsMovingDown(c: Channel)
    reads c
    requires c.kind.Blind?
  {
    c.DataPointValue(c.kind.moveStateDp) == Some("3")
  }

  /** isMovingUp: the move state is "2". */
  predicate IsMovingUp(c: Channel)
    reads c
    requires c.kind.Blind?
  {
    c.DataPointValue(c.kind.moveStateDp) == Some("2")
  }

  /** A blind never reads as moving both ways. */
  lemma NeverMovingBothWays(c: Channel)
    requires c.kind.Blind?
    ensures !(IsMovingDown(c) && IsMovingUp(c))
  {
  }

  /**
   * A blind command writes one data point. With the default data points
   * the written one is never the move state or the position state, so the
   * readings stay as they were.
   */
  method BlindCommand(c: Channel, dp: string, value: string) returns (r: Outcome<()>)
    requires c.kind.Blind?
    modifies c`dataPointValues, c.Communications()
    ensures c.project.None? ==> r == Throws(NullPointerException) && c.dataPointValues == old(c.dataPointValues)
    ensures c.project.Some? ==> r == Ok(()) && c.dataPointValues == old(c.dataPointValues)[dp := value]
    ensures c.project.Some? ==>
      c.project.value.communication.sent == old(c.project.value.communication.sent)
        + [SetDatapointRequest(c.device.serialNumber, c.id, dp, value)]
    ensures dp != c.kind.moveStateDp ==> IsMovingDown(c) == old(IsMovingDown(c)) && IsMovingUp(c) == old(IsMovingUp(c))
    ensures dp != c.kind.posStateDp ==> Position(c) == old(Position(c))
  {
    r := c.RpcSetDataPoint(dp, value);
  }

  /** The default blind data points: commands and readings are disjoint. */
  lemma DefaultBlindCommandsAreNotReadings()
    ensures BlindKind.blindDp != BlindKind.moveStateDp && BlindKind.blindDp != BlindKind.posStateDp
    ensures BlindKind.stopDp != BlindKind.moveStateDp && BlindKind.stopDp != BlindKind.posStateDp
  {
  }

  /** moveDown: "1" to the blind data point. */
  method MoveDown(c: Channel) returns (r: Outcome<()>)
    requires c.kind.Blind?
    modifies c`dataPointValues, c.Communications()
    ensures c.project.Some? ==> r == Ok(()) && c.dataPointValues == old(c.dataPointValues)[c.kind.blindDp := "1"]
    ensures c.project.Some? ==>
      c.project.value.communication.sent == old(c.project.value.communication.sent)
        + [SetDatapointRequest(c.device.serialNumber, c.id, c.kind.blindDp, "1")]
    ensures c.project.None? ==> r == Throws(NullPointerException) && c.dataPointValues == old(c.dataPointValues)
    ensures c.kind == BlindKind ==> IsMovingDown(c) == old(IsMovingDown(c)) && Position(c) == old(Position(c))
  {
    r := BlindCommand(c, c.kind.blindDp, "1");
  }

  /** moveUp: "0" to the blind data point. */
  method MoveUp(c: Channel) returns (r: Outcome<()>)
    requires c.kind.Blind?
    modifies c`dataPointValues, c.Communications()
    ensures c.project.Some? ==> r == Ok(()) && c.dataPointValues == old(c.dataPointValues)[c.kind.blindDp := "0"]
    ensures c.project.Some? ==>
      c.project.value.communication.sent == old(c.project.value.communication.sent)
        + [SetDatapointRequest(c.device.serialNumber, c.id, c.kind.blindDp, "0")]
    ensures c.project.None? ==> r == Throws(NullPointerException) && c.dataPointValues == old(c.dataPointValues)
    ensures c.kind == BlindKind ==> IsMovingUp(c) == old(IsMovingUp(c)) && Position(c) == old(Position(c))
  {
    r := BlindCommand(c, c.kind.blindDp, "0");
  }

  /** stop: "1" to the stop data point. */
  method Stop(c: Channel) returns (r: Outcome<()>)
    requires c.kind.Blind?
    modifies c`dataPointValues, c.Communications()
    ensures c.project.Some? ==> r == Ok(()) && c.dataPointValues == old(c.dataPointValues)[c.kind.stopDp := "1"]
    ensures c.project.Some? ==>
      c.project.value.communication.sent == old(c.project.value.communication.sent)
        + [SetDatapointRequest(c.device.serialNumber, c.id, c.kind.stopDp, "1")]
    ensures c.project.None? ==> r == Throws(NullPointerException) && c.dataPointValues == old(c.dataPointValues)
    ensures c.kind == BlindKind ==> IsMovingDown(c) == old(IsMovingDown(c)) && IsMovingUp(c) == old(IsMovingUp(c))
    ensures c.kind == BlindKind ==> Position(c) == old(Position(c))
  {
    r := BlindCommand(c, c.kind.stopDp, "1");
  }

  // ---------------------------------------------------------------------
  // FahScene

  /** activate: "1" to the activate data point. */
  method Activate(c: Channel) returns (r: Outcome<()>)
    requires c.kind.Scene?
    modifies c`dataPointValues, c.Communications()
    ensures c.project.Some? ==> r == Ok(()) && c.dataPointValues == old(c.dataPointValues)[c.kind.activateDp := "1"]
    ensures c.project.Some? ==>
      c.project.value.communication.sent == old(c.project.value.communication.sent)
        + [SetDatapointRequest(c.device.serialNumber, c.id, c.kind.activateDp, "1")]
    ensures c.project.None? ==> r == Throws(NullPointerException) && c.dataPointValues == old(c.dataPointValues)
  {
    r := c.RpcSetDataPoint(c.kind.activateDp, "1");
  }

  // ---------------------------------------------------------------------
  // FahSensor

  /** getRawState: the cached value of the sensor data point. */
  function RawState(c: Channel): (r: Option<string>)
    reads c
    requires c.kind.Sensor?
    ensures r.Some? <==> c.kind.sensorDp in c.dataPointValues
    ensures r.Some? ==> r.value == c.dataPointValues[c.kind.sensorDp]
  {
    c.DataPointValue(c.kind.sensorDp)
  }

  /** One sensor to create: the channel number suffix and the label. */
  datatype SensorArg = SensorArg(index: string, title: string)

  /** The decision table of processDeviceForSensors, on deviceId and the pm0000 parameter. */
  function SensorArgs(deviceId: Option<string>, pm: Option<string>): seq<SensorArg> {
    if deviceId == Some("1000") then
      if pm == Some("1") then [SensorArg("0", "NS")]
      else if pm == Some("2") then [SensorArg("1", "IS1"), SensorArg("2", "IS2")]
      else []
    else if deviceId == Some("1002") then
      (if pm == Some("1") || pm == Some("2") then [SensorArg("0", "LNS")] else [])
      + (if pm == Some("3") || pm == Some("4") then [SensorArg("1", "LIS1"), SensorArg("2", "LIS2")] else [])
      + (if pm == Some("1") || pm == Some("3") then [SensorArg("3", "RNS")] else [])
      + (if pm == Some("2") || pm == Some("4") then [SensorArg("4", "RIS1"), SensorArg("5", "RIS2")] else [])
    else []
  }

  /**
   * The table per case: a "1000" device has one normal or two split
   * sensors; a "1002" device has a left part (normal for 1 and 2, split for
   * 3 and 4) followed by a right part (normal for 1 and 3, split for 2 and 4).
   */
  lemma SensorTable(deviceId: Option<string>, pm: Option<string>)
    ensures deviceId == Some("1000") && pm == Some("1") ==> SensorArgs(deviceId, pm) == [SensorArg("0", "NS")]
    ensures deviceId == Some("1000") && pm == Some("2") ==>
      SensorArgs(deviceId, pm) == [SensorArg("1", "IS1"), SensorArg("2", "IS2")]
    ensures deviceId == Some("1002") && pm == Some("1") ==>
      SensorArgs(deviceId, pm) == [SensorArg("0", "LNS"), SensorArg("3", "RNS")]
    ensures deviceId == Some("1002") && pm == Some("2") ==>
      SensorArgs(deviceId, pm) == [SensorArg("0", "LNS"), SensorArg("4", "RIS1"), SensorArg("5", "RIS2")]
    ensures deviceId == Some("1002") && pm == Some("3") ==>
      SensorArgs(deviceId, pm) == [SensorArg("1", "LIS1"), SensorArg("2", "LIS2"), SensorArg("3", "RNS")]
    ensures deviceId == Some("1002") && pm == Some("4") ==>
      SensorArgs(deviceId, pm)
        == [SensorArg("1", "LIS1"), SensorArg("2", "LIS2"), SensorArg("4", "RIS1"), SensorArg("5", "RIS2")]
    ensures deviceId != Some("1000") && deviceId != Some("1002") ==> SensorArgs(deviceId, pm) == []
    ensures pm != Some("1") && pm != Some("2") && pm != Some("3") && pm != Some("4") ==> SensorArgs(deviceId, pm) == []
  {
  }

  /** No two sensors of one device share a channel number or a label. */
  lemma SensorArgsDistinct(deviceId: Option<string>, pm: Option<string>)
    ensures var args := SensorArgs(deviceId, pm);
      forall i, j :: 0 <= i < j < |args| ==> args[i].index != args[j].index && args[i].title != args[j].title
  {
    SensorTable(deviceId, pm);
  }

  /** "ch000" + index */
  function SensorId(arg: SensorArg): string {
    "ch000" + arg.index
  }

  /** device name + "-" + label, a null name printing as "null" */
  function SensorName(deviceName: Option<string>, arg: SensorArg): string {
    NullableText(deviceName) + "-" + arg.title
  }

  lemma SuffixInjective(prefix: string, a: string, b: string)
    requires prefix + a == prefix + b
    ensures a == b
  {
    assert a == (prefix + a)[|prefix|..];
    assert b == (prefix + b)[|prefix|..];
  }

  /** Distinct sensors get distinct channel ids and distinct names. */
  lemma SensorKeysDistinct(deviceId: Option<string>, pm: Option<string>, deviceName: Option<string>)
    ensures var args := SensorArgs(deviceId, pm);
      forall i, j :: 0 <= i < j < |args| ==>
        SensorId(args[i]) != SensorId(args[j]) && SensorName(deviceName, args[i]) != SensorName(deviceName, args[j])
  {
    var args := SensorArgs(deviceId, pm);
    SensorArgsDistinct(deviceId, pm);
    forall i, j | 0 <= i < j < |args|
      ensures SensorId(args[i]) != SensorId(args[j]) && SensorName(deviceName, args[i]) != SensorName(deviceName, args[j])
    {
      if SensorId(args[i]) == SensorId(args[j]) {
        SuffixInjective("ch000", args[i].index, args[j].index);
      }
      if SensorName(deviceName, args[i]) == SensorName(deviceName, args[j]) {
        assert NullableText(deviceName) + "-" + args[i].title == (NullableText(deviceName) + "-") + args[i].title;
        assert NullableText(deviceName) + "-" + args[j].title == (NullableText(deviceName) + "-") + args[j].title;
        SuffixInjective(NullableText(deviceName) + "-", args[i].title, args[j].title);
      }
    }
  }

  /** The project a device belongs to, as a frame. */
  function ProjectOf(device: Device): set<FahProject>
    reads device
  {
    if device.project.Some? then {device.project.value} else {}
  }

  /** The channel ids of the given sensors. */
  function SensorIds(args: seq<SensorArg>): set<string> {
    set k | k in SensorIdKeys(args)
  }

  /** The channel ids of the sensors for args, in order. */
  function SensorIdKeys(args: seq<SensorArg>): (keys: seq<string>)
    ensures |keys| == |args|
  {
    seq(|args|, i requires 0 <= i < |args| => SensorId(args[i]))
  }

  /** The channel names of the sensors for args, in order. */
  function SensorNameKeys(deviceName: Option<string>, args: seq<SensorArg>): (keys: seq<string>)
    ensures |keys| == |args|
  {
    seq(|args|, i requires 0 <= i < |args| => SensorName(deviceName, args[i]))
  }

  /** The channel names of the given sensors. */
  function SensorNames(deviceName: Option<string>, args: seq<SensorArg>): set<string> {
    set k | k in SensorNameKeys(deviceName, args)
  }

  /** now differs from before at most under the keys in changed, and loses no key. */
  ghost predicate KeptOutside<V>(now: map<string, V>, before: map<string, V>, changed: set<string>) {
    (forall k :: k in before ==> k in now)
    && (forall k :: k in now && k !in changed ==> k in before && now[k] == before[k])
  }

  /** The sensor for arg is the device's channel under its id, named and indexed as processDeviceForSensors leaves it. */
  ghost predicate SensorPresent(device: Device, arg: SensorArg)
    reads device, device.channelsById.Values, ProjectOf(device)
  {
    device.project.Some?
    && SensorId(arg) in device.channelsById
    && var c := device.channelsById[SensorId(arg)];
    c.kind == SensorKind && c.fahFunction == device.fahFunction
    && c.name == Some(SensorName(device.name, arg)) && c.project == device.project
    && SensorName(device.name, arg) in device.project.value.channelByName
    && device.project.value.channelByName[SensorName(device.name, arg)] == c
  }

  /** c is the sensor built for arg on device. */
  ghost predicate SensorBuilt(device: Device, arg: SensorArg, c: Channel)
    reads device`fahFunction, device`name, device`project, c`fahFunction, c`name, c`project
  {
    c.kind == SensorKind && c.fahFunction == device.fahFunction
    && c.name == Some(SensorName(device.name, arg)) && c.project == device.project
  }

  /** One iteration of processDeviceForSensors: build, name and add one sensor. */
  method AddSensor(device: Device, arg: SensorArg) returns (r: Outcome<Channel>)
    modifies device`channelsById, ProjectOf(device)`stringByNameId, ProjectOf(device)`functionByFunctionId
    modifies ProjectOf(device)`floorByUid, ProjectOf(device)`roomByUid, ProjectOf(device)`deviceBySerialNumber
    modifies ProjectOf(device)`channelByName
    ensures device.project.None? ==> r == Throws(NullPointerException)
    ensures device.project.None? ==>
      SensorId(arg) in device.channelsById
      && device.channelsById == old(device.channelsById)[SensorId(arg) := device.channelsById[SensorId(arg)]]
    ensures device.project.Some? ==> r.Ok? && fresh(r.value)
    ensures device.project.Some? ==> device.channelsById == old(device.channelsById)[SensorId(arg) := r.value]
    ensures device.project.Some? ==>
      device.project.value.channelByName
        == old(device.project.value.channelByName)[SensorName(device.name, arg) := r.value]
    ensures device.project.Some? ==>
      device.project.value.Ix().(channels := map[]) == old(device.project.value.Ix()).(channels := map[])
    ensures device.project.Some? ==> SensorBuilt(device, arg, r.value)
  {
    if device.project.None? {
      var sensor := new Channel(device, SensorId(arg), device.fahFunction, SensorKind);
      sensor.SetName(Some(SensorName(device.name, arg)));
      return Throws(NullPointerException);
    }
    var sensor := AddSensorTo(device, device.project.value, arg);
    return Ok(sensor);
  }

  /** AddSensor on a device that is in a project. */
  method AddSensorTo(device: Device, project: FahProject, arg: SensorArg) returns (sensor: Channel)
    requires device.project == Some(project)
    modifies device`channelsById, project`stringByNameId, project`functionByFunctionId, project`floorByUid
    modifies project`roomByUid, project`deviceBySerialNumber, project`channelByName
    ensures fresh(sensor) && SensorBuilt(device, arg, sensor)
    ensures device.channelsById == old(device.channelsById)[SensorId(arg) := sensor]
    ensures project.channelByName == old(project.channelByName)[SensorName(device.name, arg) := sensor]
    ensures project.Ix().(channels := map[]) == old(project.Ix()).(channels := map[])
  {
    sensor := new Channel(device, SensorId(arg), device.fahFunction, SensorKind);
    sensor.SetName(Some(SensorName(device.name, arg)));
    var added := project.AddPart(ChannelPart(sensor));
  }

  /** The channel ids and the names the sensors for args get are pairwise distinct. */
  ghost predicate DistinctKeys(deviceName: Option<string>, args: seq<SensorArg>) {
    forall i, j :: 0 <= i < j < |args| ==>
      SensorId(args[i]) != SensorId(args[j]) && SensorName(deviceName, args[i]) != SensorName(deviceName, args[j])
  }

  /** m with each channel of values written under the key at its position, in order. */
  ghost function Overwritten(m: map<string, Channel>, keys: seq<string>, values: seq<Channel>): map<string, Channel>
    requires |keys| == |values|
  {
    if keys == [] then m
    else Overwritten(m, keys[..|keys| - 1], values[..|values| - 1])[keys[|keys| - 1] := values[|values| - 1]]
  }

  /** With distinct keys, every value is found under its own key, and other keys keep their values. */
  lemma {:induction false} OverwrittenLookup(m: map<string, Channel>, keys: seq<string>, values: seq<Channel>)
    requires |keys| == |values| && forall i, j :: 0 <= i < j < |keys| ==> keys[i] != keys[j]
    ensures forall j :: 0 <= j < |keys| ==>
      keys[j] in Overwritten(m, keys, values) && Overwritten(m, keys, values)[keys[j]] == values[j]
    ensures KeptOutside(Overwritten(m, keys, values), m, set k | k in keys)
    decreases |keys|
  {
    if keys != [] {
      var n := |keys| - 1;
      OverwrittenLookup(m, keys[..n], values[..n]);
      forall j | 0 <= j < n
        ensures keys[j] in Overwritten(m, keys, values) && Overwritten(m, keys, values)[keys[j]] == values[j]
      {
        assert keys[..n][j] == keys[j] && values[..n][j] == values[j];
      }
      forall k | k in keys[..n] ensures k in keys { }
    }
  }

  /** The loop of processDeviceForSensors: AddSensor for each entry of args, in order. */
  method AddSensors(device: Device, args: seq<SensorArg>) returns (r: Outcome<()>)
    requires DistinctKeys(device.name, args)
    modifies device`channelsById, ProjectOf(device)`stringByNameId, ProjectOf(device)`functionByFunctionId
    modifies ProjectOf(device)`floorByUid, ProjectOf(device)`roomByUid, ProjectOf(device)`deviceBySerialNumber
    modifies ProjectOf(device)`channelByName
    ensures args == [] ==> r == Ok(()) && device.channelsById == old(device.channelsById)
    ensures args != [] && device.project.None? ==> r == Throws(NullPointerException)
    ensures device.project.Some? ==> r == Ok(())
    ensures device.project.Some? ==>
      forall k :: 0 <= k < |args| ==> SensorPresent(device, args[k])
    ensures KeptOutside(device.channelsById, old(device.channelsById), SensorIds(args))
    ensures device.project.Some? ==>
      KeptOutside(device.project.value.channelByName, old(device.project.value.channelByName),
                  SensorNames(device.name, args))
    ensures device.project.Some? ==>
      device.project.value.Ix().(channels := map[]) == old(device.project.value.Ix()).(channels := map[])
  {
    if device.project.None? {
      if args == [] {
        return Ok(());
      }
      var failed := AddSensor(device, args[0]);
      assert SensorIdKeys(args)[0] == SensorId(args[0]);
      return Throws(failed.ex);
    }
    r := AddSensorsIn(device, device.project.value, args);
  }

  /** The loop of processDeviceForSensors on a device that is in a project. */
  method AddSensorsIn(device: Device, project: FahProject, args: seq<SensorArg>) returns (r: Outcome<()>)
    requires DistinctKeys(device.name, args) && device.project == Some(project)
    modifies device`channelsById, project`stringByNameId, project`functionByFunctionId, project`floorByUid
    modifies project`roomByUid, project`deviceBySerialNumber, project`channelByName
    ensures r == Ok(())
    ensures forall k :: 0 <= k < |args| ==> SensorPresent(device, args[k])
    ensures KeptOutside(device.channelsById, old(device.channelsById), SensorIds(args))
    ensures KeptOutside(project.channelByName, old(project.channelByName), SensorNames(device.name, args))
    ensures project.Ix().(channels := map[]) == old(project.Ix()).(channels := map[])
  {
    var sensors := AddEachSensor(device, project, args);
    OverwrittenLookup(old(device.channelsById), SensorIdKeys(args), sensors);
    OverwrittenLookup(old(project.channelByName), SensorNameKeys(device.name, args), sensors);
    forall k | 0 <= k < |args|
      ensures SensorPresent(device, args[k])
    {
      AllSensorsBuiltEach(device, args, sensors, k);
    }
    return Ok(());
  }

  /** Each sensor of sensors is the one built for the entry of args at its position. */
  ghost predicate AllSensorsBuilt(device: Device, args: seq<SensorArg>, sensors: seq<Channel>)
    requires |args| == |sensors|
    reads device`fahFunction, device`name, device`project
    reads (set c | c in sensors)`fahFunction, (set c | c in sensors)`name, (set c | c in sensors)`project
    decreases |args|
  {
    args == []
    || (AllSensorsBuilt(device, args[..|args| - 1], sensors[..|sensors| - 1])
        && SensorBuilt(device, args[|args| - 1], sensors[|sensors| - 1]))
  }

  /** AllSensorsBuilt, entry by entry. */
  lemma {:induction false} AllSensorsBuiltEach(device: Device, args: seq<SensorArg>, sensors: seq<Channel>, j: nat)
    requires |args| == |sensors| && j < |args| && AllSensorsBuilt(device, args, sensors)
    ensures SensorBuilt(device, args[j], sensors[j])
    decreases |args|
  {
    var n := |args| - 1;
    if j < n {
      AllSensorsBuiltEach(device, args[..n], sensors[..n], j);
    }
  }

  /** AddSensor for each entry of args in order, with the sensors it builds. */
  method AddEachSensor(device: Device, project: FahProject, args: seq<SensorArg>) returns (ghost sensors: seq<Channel>)
    requires device.project == Some(project)
    modifies device`channelsById, project`stringByNameId, project`functionByFunctionId, project`floorByUid
    modifies project`roomByUid, project`deviceBySerialNumber, project`channelByName
    ensures |sensors| == |args|
    ensures AllSensorsBuilt(device, args, sensors)
    ensures device.channelsById == Overwritten(old(device.channelsById), SensorIdKeys(args), sensors)
    ensures project.channelByName == Overwritten(old(project.channelByName), SensorNameKeys(device.name, args), sensors)
    ensures project.Ix().(channels := map[]) == old(project.Ix()).(channels := map[])
  {
    sensors := [];
    var k := 0;
    while k < |args|
      invariant 0 <= k <= |args| && |sensors| == k
      invariant AllSensorsBuilt(device, args[..k], sensors)
      invariant device.channelsById == Overwritten(old(device.channelsById), SensorIdKeys(args)[..k], sensors)
      invariant project.channelByName == Overwritten(old(project.channelByName), SensorNameKeys(device.name, args)[..k], sensors)
      invariant project.Ix().(channels := map[]) == old(project.Ix()).(channels := map[])
    {
      sensors := AddSensorAt(device, project, args, k, sensors, old(device.channelsById), old(project.channelByName));
      k := k + 1;
    }
    assert args[..k] == args;
    assert SensorIdKeys(args)[..k] == SensorIdKeys(args);
    assert SensorNameKeys(device.name, args)[..k] == SensorNameKeys(device.name, args);
  }

  /** One iteration of AddEachSensor: the sensor for the entry at k, and the folds extended by it. */
  method AddSensorAt(device: Device, project: FahProject, args: seq<SensorArg>, k: nat, ghost sensors: seq<Channel>,
                     ghost ids: map<string, Channel>, ghost names: map<string, Channel>)
    returns (ghost sensors': seq<Channel>)
    requires device.project == Some(project) && k == |sensors| < |args|
    requires AllSensorsBuilt(device, args[..k], sensors)
    requires device.channelsById == Overwritten(ids, SensorIdKeys(args)[..k], sensors)
    requires project.channelByName == Overwritten(names, SensorNameKeys(device.name, args)[..k], sensors)
    modifies device`channelsById, project`stringByNameId, project`functionByFunctionId, project`floorByUid
    modifies project`roomByUid, project`deviceBySerialNumber, project`channelByName
    ensures |sensors'| == k + 1 && sensors'[..k] == sensors
    ensures AllSensorsBuilt(device, args[..k + 1], sensors')
    ensures device.channelsById == Overwritten(ids, SensorIdKeys(args)[..k + 1], sensors')
    ensures project.channelByName == Overwritten(names, SensorNameKeys(device.name, args)[..k + 1], sensors')
    ensures project.Ix().(channels := map[]) == old(project.Ix()).(channels := map[])
  {
    var sensor := AddSensorTo(device, project, args[k]);
    AllSensorsBuiltSnoc(device, args, sensors, sensor);
    OverwrittenSnoc(ids, SensorIdKeys(args), sensors, sensor);
    OverwrittenSnoc(names, SensorNameKeys(device.name, args), sensors, sensor);
    sensors' := sensors + [sensor];
  }

  /** AllSensorsBuilt, extended by one sensor. */
  lemma AllSensorsBuiltSnoc(device: Device, args: seq<SensorArg>, sensors: seq<Channel>, sensor: Channel)
    requires |sensors| < |args|
    requires AllSensorsBuilt(device, args[..|sensors|], sensors) && SensorBuilt(device, args[|sensors|], sensor)
    ensures AllSensorsBuilt(device, args[..|sensors| + 1], sensors + [sensor])
  {
    var k := |sensors|;
    assert args[..k + 1][..k] == args[..k];
    assert (sensors + [sensor])[..k] == sensors;
  }

  /** Overwritten, extended by one key and value. */
  lemma OverwrittenSnoc(m: map<string, Channel>, keys: seq<string>, values: seq<Channel>, value: Channel)
    requires |values| < |keys|
    ensures Overwritten(m, keys[..|values| + 1], values + [value])
         == Overwritten(m, keys[..|values|], values)[keys[|values|] := value]
  {
    var k := |values|;
    assert keys[..k + 1][..k] == keys[..k];
    assert (values + [value])[..k] == values;
  }

  /**
   * processDeviceForSensors: one FahSensor per table entry, in table order,
   * each registered with the device under "ch000"+index (replacing a channel
   * with that id), named "<device name>-<label>", carrying the device's
   * function, and added to the device's project. A device not yet in a
   * project fails with NullPointerException when the first sensor is added.
   */
  method ProcessDeviceForSensors(device: Device) returns (r: Outcome<()>)
    modifies device`channelsById, ProjectOf(device)`stringByNameId, ProjectOf(device)`functionByFunctionId
    modifies ProjectOf(device)`floorByUid, ProjectOf(device)`roomByUid, ProjectOf(device)`deviceBySerialNumber
    modifies ProjectOf(device)`channelByName
    ensures var args := SensorArgs(device.deviceId, device.ParameterValue("pm0000"));
      args == [] ==> r == Ok(()) && device.channelsById == old(device.channelsById)
    ensures var args := SensorArgs(device.deviceId, device.ParameterValue("pm0000"));
      args != [] && device.project.None? ==> r == Throws(NullPointerException)
    ensures var args := SensorArgs(device.deviceId, device.ParameterValue("pm0000"));
      device.project.Some? ==>
        r == Ok(())
        && (forall k :: 0 <= k < |args| ==> SensorPresent(device, args[k]))
        && KeptOutside(device.channelsById, old(device.channelsById), SensorIds(args))
        && KeptOutside(device.project.value.channelByName, old(device.project.value.channelByName),
                       SensorNames(device.name, args))
        && device.project.value.Ix().(channels := map[]) == old(device.project.value.Ix()).(channels := map[])
  {
    var args := SensorArgs(device.deviceId, device.ParameterValue("pm0000"));
    SensorKeysDistinct(device.deviceId, device.ParameterValue("pm0000"), device.name);
    r := AddSensors(device, args);
  }
}
