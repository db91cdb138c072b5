// FahXmlProcessor: building a project from the SysAP's project document and
// merging its push updates into an existing project. The documents arrive
// already unmarshalled, as the values below; JAXB itself is not modelled.

module XmlProcessor {
  import opened Wrappers
  import opened JavaLang
  import opened Project
  import opened Things
  import opened ChannelFactories

  // ---------------------------------------------------------------------
  // The unmarshalled documents. An attribute the document may omit is an
  // Option; a channel's and a data point's `i` are taken as present.

  datatype PxKeyValue = PxKeyValue(name: Option<string>, value: Option<string>)
  datatype PxString = PxString(nameId: Option<string>, value: Option<string>)
  datatype PxFunction = PxFunction(functionId: Option<string>, nameId: Option<string>, name: Option<string>)
  datatype PxRoom = PxRoom(uid: Option<string>, name: Option<string>)
  datatype PxFloor = PxFloor(uid: Option<string>, name: Option<string>, level: int, rooms: seq<PxRoom>)
  /** A data point of a channel with its listed values (PxDataPoint and UxDataPoint alike). */
  datatype DataPoint = DataPoint(i: string, values: seq<string>)
  datatype PxChannel = PxChannel(i: string, attributes: seq<PxKeyValue>, inputs: seq<DataPoint>,
                                 outputs: seq<DataPoint>)
  datatype PxDevice = PxDevice(serialNumber: Option<string>, nameId: Option<string>, functionId: Option<string>,
                               attributes: seq<PxKeyValue>, channels: seq<PxChannel>)
  /** fahDefinitions is None when the document has no definitions element. */
  datatype PxProject = PxProject(sysapValues: seq<PxKeyValue>, configValues: seq<PxKeyValue>,
                                 strings: seq<PxString>, fahDefinitions: Option<seq<PxFunction>>,
                                 floors: seq<PxFloor>, devices: seq<PxDevice>)

  datatype UxChannel = UxChannel(i: string, inputs: seq<DataPoint>, outputs: seq<DataPoint>)
  datatype UxDevice = UxDevice(serialNumber: Option<string>, channels: seq<UxChannel>)
  datatype UxProject = UxProject(sysapValues: seq<PxKeyValue>, devices: seq<UxDevice>)

  // ---------------------------------------------------------------------
  // findKV and parseId

  /** findKV: the value of the first entry named key (null when that entry's value is null). */
  function FindKV(kvs: seq<PxKeyValue>, key: string): Option<string> {
    if kvs == [] then None
    else if kvs[0].name == Some(key) then kvs[0].value
    else FindKV(kvs[1..], key)
  }

  /**
   * findKV finds nothing when no entry is named key, and otherwise the value
   * of the first entry named key.
   */
  lemma FindKVFirst(kvs: seq<PxKeyValue>, key: string)
    ensures (forall i :: 0 <= i < |kvs| ==> kvs[i].name != Some(key)) ==> FindKV(kvs, key).None?
    ensures forall i ::
      (0 <= i < |kvs| && kvs[i].name == Some(key) && forall j :: 0 <= j < i ==> kvs[j].name != Some(key))
      ==> FindKV(kvs, key) == kvs[i].value
  {
    if forall i :: 0 <= i < |kvs| ==> kvs[i].name != Some(key) {
      FindKVNone(kvs, key);
    }
    forall i | 0 <= i < |kvs| && kvs[i].name == Some(key) && forall j :: 0 <= j < i ==> kvs[j].name != Some(key)
      ensures FindKV(kvs, key) == kvs[i].value
    {
      FindKVAt(kvs, key, i);
    }
  }

  /** No entry named key: findKV finds nothing. */
  lemma {:induction false} FindKVNone(kvs: seq<PxKeyValue>, key: string)
    requires forall i :: 0 <= i < |kvs| ==> kvs[i].name != Some(key)
    ensures FindKV(kvs, key).None?
    decreases |kvs|
  {
    if kvs != [] {
      assert kvs[0].name != Some(key);
      assert forall i :: 0 <= i < |kvs| - 1 ==> kvs[1..][i] == kvs[i + 1];
      FindKVNone(kvs[1..], key);
    }
  }

  /** The first entry named key is at i: findKV finds its value. */
  lemma {:induction false} FindKVAt(kvs: seq<PxKeyValue>, key: string, i: nat)
    requires i < |kvs| && kvs[i].name == Some(key) && forall j :: 0 <= j < i ==> kvs[j].name != Some(key)
    ensures FindKV(kvs, key) == kvs[i].value
    decreases i
  {
    if i > 0 {
      assert kvs[0].name != Some(key);
      assert forall j :: 0 <= j < i - 1 ==> kvs[1..][j] == kvs[j + 1];
      assert kvs[1..][i - 1] == kvs[i];
      FindKVAt(kvs[1..], key, i - 1);
    }
  }

  /** Entries after the first one named key do not change what findKV returns. */
  lemma FindKVFirstWins(kvs: seq<PxKeyValue>, key: string, value: Option<string>, rest: seq<PxKeyValue>)
    ensures FindKV(kvs + [PxKeyValue(Some(key), value)] + rest, key)
         == (if exists i :: 0 <= i < |kvs| && kvs[i].name == Some(key) then FindKV(kvs, key) else value)
  {
    var all := kvs + [PxKeyValue(Some(key), value)] + rest;
    assert all[|kvs|].name == Some(key);
    FindKVFirst(all, key);
    FindKVFirst(kvs, key);
    if exists i :: 0 <= i < |kvs| && kvs[i].name == Some(key) {
      var i :| 0 <= i < |kvs| && kvs[i].name == Some(key) && forall j :: 0 <= j < i ==> kvs[j].name != Some(key)
        by {
          var i0 :| 0 <= i0 < |kvs| && kvs[i0].name == Some(key);
          var i1 := FirstNamed(kvs, key, i0);
          assert 0 <= i1 < |kvs| && kvs[i1].name == Some(key) && forall j :: 0 <= j < i1 ==> kvs[j].name != Some(key);
        }
      assert all[i] == kvs[i];
    } else {
      assert forall j :: 0 <= j < |kvs| ==> all[j] == kvs[j];
    }
  }

  /** The first entry named key, at or before a given one. */
  lemma {:induction false} FirstNamed(kvs: seq<PxKeyValue>, key: string, i0: nat) returns (i: nat)
    requires i0 < |kvs| && kvs[i0].name == Some(key)
    ensures i <= i0 && kvs[i].name == Some(key) && forall j :: 0 <= j < i ==> kvs[j].name != Some(key)
    decreases i0
  {
    if exists j :: 0 <= j < i0 && kvs[j].name == Some(key) {
      var j :| 0 <= j < i0 && kvs[j].name == Some(key);
      i := FirstNamed(kvs, key, j);
    } else {
      i := i0;
    }
  }

  /** parseId: null stays null, anything else is parsed as hexadecimal. */
  function ParseId(id: Option<string>): Outcome<Option<int>> {
    match id
    case None => Ok(None)
    case Some(s) =>
      match ParseInt(s, 16)
      case Ok(n) => Ok(Some(n))
      case Throws(e) => Throws(e)
  }

  /** parseId's Integer passed where an int is expected: a null unboxes to a NullPointerException. */
  function ParseIdUnboxed(id: Option<string>): Outcome<int> {
    match ParseId(id)
    case Throws(e) => Throws(e)
    case Ok(None) => Throws(NullPointerException)
    case Ok(Some(n)) => Ok(n)
  }

  /**
   * A missing id stays null until it is unboxed, which throws; a present one
   * fails exactly as Integer.parseInt in base 16 does.
   */
  lemma ParseIdNull()
    ensures ParseId(None) == Ok(None)
    ensures ParseIdUnboxed(None) == Throws(NullPointerException)
  {
  }

  lemma ParseIdPresent(id: string)
    ensures ParseInt(id, 16).Throws? ==> ParseId(Some(id)) == Throws(NumberFormatException)
    ensures ParseInt(id, 16).Ok? ==> ParseId(Some(id)) == Ok(Some(ParseInt(id, 16).value))
    ensures ParseIdUnboxed(Some(id)) == ParseInt(id, 16)
  {
  }

  /** A lower-case hexadecimal id parses to its value. */
  lemma ParseIdHex(id: string)
    requires id != [] && AllDigits(id, 16) && DigitsValue(id, 16) <= IntMax
    ensures ParseId(Some(id)) == Ok(Some(DigitsValue(id, 16)))
  {
    AllDigitsFirst(id, 16);
  }

  // ---------------------------------------------------------------------
  // Data point values

  /** values.stream().findFirst().orElse(null) */
  function FirstValue(values: seq<string>): (r: Option<string>)
    ensures r.None? <==> values == []
    ensures r.Some? ==> r.value == values[0]
  {
    if values == [] then None else Some(values[0])
  }

  /** The data point cache after setDataPoint for each data point in order. */
  function ApplyDataPoints(m: map<string, string>, dps: seq<DataPoint>): map<string, string>
    decreases |dps|
  {
    if dps == [] then m
    else
      var last := dps[|dps| - 1];
      PutOrRemove(ApplyDataPoints(m, dps[..|dps| - 1]), last.i, FirstValue(last.values))
  }

  /** Applying two lists one after the other is applying their concatenation. */
  lemma {:induction false} ApplyDataPointsAppend(m: map<string, string>, a: seq<DataPoint>, b: seq<DataPoint>)
    ensures ApplyDataPoints(ApplyDataPoints(m, a), b) == ApplyDataPoints(m, a + b)
    decreases |b|
  {
    if b == [] {
      assert a + b == a;
    } else {
      var n := |b| - 1;
      ApplyDataPointsAppend(m, a, b[..n]);
      assert (a + b)[..|a + b| - 1] == a + b[..n];
      assert (a + b)[|a + b| - 1] == b[n];
    }
  }

  /**
   * The data point listed last for an id decides it: its first value, or
   * its removal when it lists none. So an output overrides an input of the
   * same id.
   */
  lemma {:induction false} LastDataPointWins(m: map<string, string>, dps: seq<DataPoint>, k: nat)
    requires k < |dps|
    requires forall j :: k < j < |dps| ==> dps[j].i != dps[k].i
    ensures FirstValue(dps[k].values).Some? ==>
      dps[k].i in ApplyDataPoints(m, dps) && ApplyDataPoints(m, dps)[dps[k].i] == dps[k].values[0]
    ensures FirstValue(dps[k].values).None? ==> dps[k].i !in ApplyDataPoints(m, dps)
    decreases |dps|
  {
    var n := |dps| - 1;
    if k < n {
      LastDataPointWins(m, dps[..n], k);
    }
  }

  /** A data point id no entry names keeps its cached value. */
  lemma {:induction false} UnlistedDataPointKept(m: map<string, string>, dps: seq<DataPoint>, id: string)
    requires forall j :: 0 <= j < |dps| ==> dps[j].i != id
    ensures id in ApplyDataPoints(m, dps) <==> id in m
    ensures id in m ==> ApplyDataPoints(m, dps)[id] == m[id]
    decreases |dps|
  {
    if dps != [] {
      UnlistedDataPointKept(m, dps[..|dps| - 1], id);
    }
  }

  /** setDataPoint for each data point, in order. */
  method SetDataPoints(c: Channel, dps: seq<DataPoint>)
    modifies c`dataPointValues
    ensures c.dataPointValues == ApplyDataPoints(old(c.dataPointValues), dps)
  {
    var k := 0;
    while k < |dps|
      invariant 0 <= k <= |dps|
      invariant c.dataPointValues == ApplyDataPoints(old(c.dataPointValues), dps[..k])
    {
      c.SetDataPoint(dps[k].i, FirstValue(dps[k].values));
      assert dps[..k + 1][..k] == dps[..k];
      k := k + 1;
    }
    assert dps[..k] == dps;
  }

  // ---------------------------------------------------------------------
  // Key/value sections (sysap and config)

  /** A key/value entry whose name is null: putting it throws. */
  predicate NameIsNull(kv: PxKeyValue) {
    kv.name.None?
  }

  /** The map after put(name, value) for each entry in order. */
  function PutValues(m: map<string, Option<string>>, kvs: seq<PxKeyValue>): map<string, Option<string>>
    requires forall j :: 0 <= j < |kvs| ==> kvs[j].name.Some?
    decreases |kvs|
  {
    if kvs == [] then m
    else
      var last := kvs[|kvs| - 1];
      PutValues(m, kvs[..|kvs| - 1])[last.name.value := last.value]
  }

  /** After the puts, a name no entry has keeps what it held. */
  lemma {:induction false} PutValuesUnnamedKept(m: map<string, Option<string>>, kvs: seq<PxKeyValue>, name: string)
    requires forall j :: 0 <= j < |kvs| ==> kvs[j].name.Some? && kvs[j].name != Some(name)
    ensures name in PutValues(m, kvs) <==> name in m
    ensures name in m ==> PutValues(m, kvs)[name] == m[name]
    decreases |kvs|
  {
    if kvs != [] {
      PutValuesUnnamedKept(m, kvs[..|kvs| - 1], name);
    }
  }

  /** After the puts, a name holds the value of the last entry with that name. */
  lemma {:induction false} PutValuesLastWins(m: map<string, Option<string>>, kvs: seq<PxKeyValue>, k: nat)
    requires forall j :: 0 <= j < |kvs| ==> kvs[j].name.Some?
    requires k < |kvs| && forall j :: k < j < |kvs| ==> kvs[j].name != kvs[k].name
    ensures kvs[k].name.value in PutValues(m, kvs) && PutValues(m, kvs)[kvs[k].name.value] == kvs[k].value
    decreases |kvs|
  {
    var n := |kvs| - 1;
    if k < n {
      PutValuesLastWins(m, kvs[..n], k);
      assert kvs[n].name.value != kvs[k].name.value;
    }
  }

  /** The sysap section: addSysap for each entry until one has a null name. */
  method ProcessSysapValues(project: FahProject, kvs: seq<PxKeyValue>) returns (r: Outcome<()>)
    modifies project`sysap
    ensures r.Throws? <==> FirstWhere(kvs, NameIsNull) < |kvs|
    ensures r.Throws? ==> r.ex == NullPointerException
    ensures project.sysap == PutValues(old(project.sysap), kvs[..FirstWhere(kvs, NameIsNull)])
  {
    var k := 0;
    while k < |kvs|
      invariant 0 <= k <= FirstWhere(kvs, NameIsNull)
      invariant project.sysap == PutValues(old(project.sysap), kvs[..k])
    {
      r := project.AddSysap(kvs[k].name, kvs[k].value);
      if r.Throws? {
        return;
      }
      assert kvs[..k + 1][..k] == kvs[..k];
      k := k + 1;
    }
    return Ok(());
  }

  /** The config section: addConfig for each entry until one has a null name. */
  method ProcessConfigValues(project: FahProject, kvs: seq<PxKeyValue>) returns (r: Outcome<()>)
    modifies project`config
    ensures r.Throws? <==> FirstWhere(kvs, NameIsNull) < |kvs|
    ensures r.Throws? ==> r.ex == NullPointerException
    ensures project.config == PutValues(old(project.config), kvs[..FirstWhere(kvs, NameIsNull)])
  {
    var k := 0;
    while k < |kvs|
      invariant 0 <= k <= FirstWhere(kvs, NameIsNull)
      invariant project.config == PutValues(old(project.config), kvs[..k])
    {
      r := project.AddConfig(kvs[k].name, kvs[k].value);
      if r.Throws? {
        return;
      }
      assert kvs[..k + 1][..k] == kvs[..k];
      k := k + 1;
    }
    return Ok(());
  }

  // ---------------------------------------------------------------------
  // processUpdateXml

  /** The channels of the project's indexed devices. */
  function IndexedChannels(project: FahProject): set<Channel>
    reads project`deviceBySerialNumber, (set d | d in project.deviceBySerialNumber.Values)`channelsById
  {
    set d, c | d in project.deviceBySerialNumber.Values && c in d.channelsById.Values :: c
  }

  /**
   * What addPart and the channel constructor keep true: a device is indexed
   * under its own serial number, and its channels under their own ids.
   */
  ghost predicate IndexConsistent(project: FahProject)
    reads project`deviceBySerialNumber, (set d | d in project.deviceBySerialNumber.Values)`channelsById
  {
    forall s :: s in project.deviceBySerialNumber ==>
      project.deviceBySerialNumber[s].serialNumber == Some(s)
      && ChannelsKeyedById(project.deviceBySerialNumber[s])
  }

  ghost predicate ChannelsKeyedById(d: Device)
    reads d`channelsById
  {
    forall id :: id in d.channelsById ==> d.channelsById[id].id == id && d.channelsById[id].device == d
  }

  /** A device whose channels are keyed by id owns each of them. */
  lemma KeyedChannelsOwned(d: Device)
    requires ChannelsKeyedById(d)
    ensures forall c :: c in d.channelsById.Values ==> c.device == d
  {
  }

  /** The data points an update lists for the channel with this id, inputs before outputs. */
  function ChannelUpdates(channels: seq<UxChannel>, id: string): seq<DataPoint>
    decreases |channels|
  {
    if channels == [] then []
    else ChannelUpdates(channels[..|channels| - 1], id) + ChannelDelta(channels[|channels| - 1], id)
  }

  /** The data points one channel entry of an update lists for the channel with this id. */
  function ChannelDelta(uc: UxChannel, id: string): seq<DataPoint> {
    if uc.i == id then uc.inputs + uc.outputs else []
  }

  /** The data points an update lists for channel id of the device with this serial number. */
  function DeviceUpdates(devices: seq<UxDevice>, serial: Option<string>, id: string): seq<DataPoint>
    decreases |devices|
  {
    if devices == [] then []
    else DeviceUpdates(devices[..|devices| - 1], serial, id) + DeviceDelta(devices[|devices| - 1], serial, id)
  }

  /** The data points one device entry of an update lists for channel id of the device with this serial number. */
  function DeviceDelta(ud: UxDevice, serial: Option<string>, id: string): seq<DataPoint> {
    if serial.Some? && ud.serialNumber == serial then ChannelUpdates(ud.channels, id) else []
  }

  /** A device entry of an update whose serial number is null: merging it throws. */
  predicate SerialIsNull(ud: UxDevice) {
    ud.serialNumber.None?
  }

  /** The data points each channel of cs holds. */
  function DataPointsOf(cs: set<Channel>): (m: map<Channel, map<string, string>>)
    reads cs
    ensures m.Keys == cs && forall c :: c in cs ==> m[c] == c.dataPointValues
  {
    map c | c in cs :: c.dataPointValues
  }

  /** The data points of each channel after the channel entries ucs, one after the other. */
  function Merged(m: map<Channel, map<string, string>>, ucs: seq<UxChannel>): (r: map<Channel, map<string, string>>)
    ensures r.Keys == m.Keys
    decreases |ucs|
  {
    if ucs == [] then m else MergeEntry(Merged(m, ucs[..|ucs| - 1]), ucs[|ucs| - 1])
  }

  /** The data points of each channel after one channel entry: the channel with its id takes the entry's data points. */
  function MergeEntry(m: map<Channel, map<string, string>>, uc: UxChannel): (r: map<Channel, map<string, string>>)
    ensures r.Keys == m.Keys
  {
    map c | c in m :: ApplyDataPoints(m[c], ChannelDelta(uc, c.id))
  }

  /** Merging entry by entry gives each channel the data points the entries list for its id, in order. */
  lemma {:induction false} MergedChannelUpdates(m: map<Channel, map<string, string>>, ucs: seq<UxChannel>, c: Channel)
    requires c in m
    ensures Merged(m, ucs)[c] == ApplyDataPoints(m[c], ChannelUpdates(ucs, c.id))
    decreases |ucs|
  {
    if ucs != [] {
      var n := |ucs| - 1;
      MergedChannelUpdates(m, ucs[..n], c);
      ApplyDataPointsAppend(m[c], ChannelUpdates(ucs[..n], c.id), ChannelDelta(ucs[n], c.id));
    }
  }

  /** One device of an update: each channel the device has takes its listed data points. */
  method UpdateDeviceChannels(d: Device, channels: seq<UxChannel>)
    requires ChannelsKeyedById(d)
    modifies d.channelsById.Values`dataPointValues
    ensures DataPointsOf(d.channelsById.Values) == Merged(old(DataPointsOf(d.channelsById.Values)), channels)
  {
    ghost var start := DataPointsOf(d.channelsById.Values);
    var k := 0;
    while k < |channels|
      invariant 0 <= k <= |channels|
      invariant DataPointsOf(d.channelsById.Values) == Merged(start, channels[..k])
    {
      UpdateChannel(d, channels[k]);
      assert channels[..k + 1][..k] == channels[..k];
      k := k + 1;
    }
    assert channels[..k] == channels;
  }

  /** One channel entry of an update: the device's channel with that id, if any, takes its data points. */
  method UpdateChannel(d: Device, uc: UxChannel)
    requires ChannelsKeyedById(d)
    modifies d.channelsById.Values`dataPointValues
    ensures DataPointsOf(d.channelsById.Values) == MergeEntry(old(DataPointsOf(d.channelsById.Values)), uc)
  {
    var found := d.GetChannel(uc.i);
    if found.Some? {
      UpdateFoundChannel(d, found.value, uc);
    } else {
      KeyedChannelsFound(d);
      MergedUnlisted(DataPointsOf(d.channelsById.Values), uc);
    }
  }

  /** The channel the device keeps under the entry's id takes the entry's inputs, then its outputs. */
  method UpdateFoundChannel(d: Device, c: Channel, uc: UxChannel)
    requires ChannelsKeyedById(d) && uc.i in d.channelsById && d.channelsById[uc.i] == c
    modifies c`dataPointValues
    ensures DataPointsOf(d.channelsById.Values) == MergeEntry(old(DataPointsOf(d.channelsById.Values)), uc)
  {
    ghost var before := DataPointsOf(d.channelsById.Values);
    SetDataPoints(c, uc.inputs + uc.outputs);
    KeyedChannelsFound(d);
    forall e | e in d.channelsById.Values
      ensures DataPointsOf(d.channelsById.Values)[e] == MergeEntry(before, uc)[e]
    {
    }
  }

  /** A channel of a device whose channels are keyed by id is found under its own id. */
  lemma KeyedChannelsFound(d: Device)
    requires ChannelsKeyedById(d)
    ensures forall c :: c in d.channelsById.Values ==> c.id in d.channelsById && d.channelsById[c.id] == c
  {
    forall c | c in d.channelsById.Values
      ensures c.id in d.channelsById && d.channelsById[c.id] == c
    {
      var key :| key in d.channelsById && d.channelsById[key] == c;
    }
  }

  /** A channel entry whose id no channel has leaves every channel as it was. */
  lemma MergedUnlisted(m: map<Channel, map<string, string>>, uc: UxChannel)
    requires forall c :: c in m ==> c.id != uc.i
    ensures MergeEntry(m, uc) == m
  {
  }

  /**
   * processUpdateXml: the sysap values are set by name; then for each device
   * the project knows, each channel it has takes the update's data points,
   * inputs then outputs, each the first listed value or null (which removes
   * the data point). Unknown devices and channels are skipped and nothing is
   * created. A null name or serial number is a NullPointerException that
   * ends the merge where it occurs.
   */
  method ProcessUpdateXml(x: UxProject, project: FahProject) returns (r: Outcome<()>)
    requires IndexConsistent(project)
    modifies project`sysap, IndexedChannels(project)`dataPointValues
    ensures project.sysap == PutValues(old(project.sysap), x.sysapValues[..FirstWhere(x.sysapValues, NameIsNull)])
    ensures r.Throws? <==> FirstWhere(x.sysapValues, NameIsNull) < |x.sysapValues| || FirstWhere(x.devices, SerialIsNull) < |x.devices|
    ensures r.Throws? ==> r.ex == NullPointerException
    ensures var merged := if FirstWhere(x.sysapValues, NameIsNull) < |x.sysapValues| then 0 else FirstWhere(x.devices, SerialIsNull);
      forall c :: c in old(IndexedChannels(project)) ==>
        c.dataPointValues == ApplyDataPoints(old(c.dataPointValues), DeviceUpdates(x.devices[..merged], c.device.serialNumber, c.id))
  {
    r := ProcessSysapValues(project, x.sysapValues);
    if r.Throws? {
      assert x.devices[..0] == [];
      return;
    }
    r := MergeDevices(project, x.devices);
  }

  /** The device entries of an update, in order, until one has a null serial number. */
  method MergeDevices(project: FahProject, devices: seq<UxDevice>) returns (r: Outcome<()>)
    requires IndexConsistent(project)
    modifies IndexedChannels(project)`dataPointValues
    ensures r.Throws? <==> FirstWhere(devices, SerialIsNull) < |devices|
    ensures r.Throws? ==> r.ex == NullPointerException
    ensures forall c :: c in old(IndexedChannels(project)) ==>
      c.dataPointValues
        == ApplyDataPoints(old(c.dataPointValues), DeviceUpdates(devices[..FirstWhere(devices, SerialIsNull)], c.device.serialNumber, c.id))
  {
    ghost var channels := IndexedChannels(project);
    ghost var before := map c | c in channels :: c.dataPointValues;
    var k := 0;
    while k < |devices|
      invariant 0 <= k <= FirstWhere(devices, SerialIsNull)
      invariant IndexConsistent(project) && IndexedChannels(project) == channels
      invariant MergedSoFar(channels, before, devices[..k])
    {
      r := MergeDeviceAt(project, devices, k, before);
      if r.Throws? {
        return;
      }
      k := k + 1;
    }
    assert devices[..k] == devices;
    return Ok(());
  }

  /** Each channel of cs holds its data points from before, then those the device entries uds list for it. */
  ghost predicate MergedSoFar(cs: set<Channel>, before: map<Channel, map<string, string>>, uds: seq<UxDevice>)
    reads cs
  {
    forall c :: c in cs ==>
      c in before && c.dataPointValues == ApplyDataPoints(before[c], DeviceUpdates(uds, c.device.serialNumber, c.id))
  }

  /** One iteration of processUpdateXml's device loop, with the data points each channel has taken so far. */
  method MergeDeviceAt(project: FahProject, devices: seq<UxDevice>, k: nat,
                       ghost before: map<Channel, map<string, string>>)
    returns (r: Outcome<()>)
    requires IndexConsistent(project)
    requires k < |devices| && k <= FirstWhere(devices, SerialIsNull)
    requires MergedSoFar(IndexedChannels(project), before, devices[..k])
    modifies IndexedChannels(project)`dataPointValues
    ensures r.Throws? <==> FirstWhere(devices, SerialIsNull) == k
    ensures r.Throws? ==> r.ex == NullPointerException
    ensures IndexConsistent(project) && IndexedChannels(project) == old(IndexedChannels(project))
    ensures r.Throws? ==> MergedSoFar(IndexedChannels(project), before, devices[..k])
    ensures r.Ok? ==> MergedSoFar(IndexedChannels(project), before, devices[..k + 1])
  {
    ghost var cs := IndexedChannels(project);
    r := MergeDevice(project, devices[k]);
    assert devices[..k + 1] == devices[..k] + [devices[k]];
    MergedSoFarStep(devices[..k], devices[k], (cs, before));
  }

  /** A device entry whose data points every channel has taken extends what the channels hold so far. */
  twostate lemma MergedSoFarStep(new uds: seq<UxDevice>, new ud: UxDevice,
                                 merged: (set<Channel>, map<Channel, map<string, string>>))
    requires old(MergedSoFar(merged.0, merged.1, uds))
    requires forall c :: c in merged.0 ==>
      c.dataPointValues == ApplyDataPoints(old(c.dataPointValues), DeviceDelta(ud, c.device.serialNumber, c.id))
    ensures MergedSoFar(merged.0, merged.1, uds + [ud])
    ensures ud.serialNumber.None? ==> MergedSoFar(merged.0, merged.1, uds)
  {
    var all := uds + [ud];
    assert all[..|uds|] == uds && all[|uds|] == ud;
    forall c | c in merged.0
      ensures c in merged.1
      ensures c.dataPointValues == ApplyDataPoints(merged.1[c], DeviceUpdates(all, c.device.serialNumber, c.id))
    {
      ApplyDataPointsAppend(merged.1[c], DeviceUpdates(uds, c.device.serialNumber, c.id),
                            DeviceDelta(ud, c.device.serialNumber, c.id));
    }
  }

  /**
   * One device entry of an update: a null serial number is a
   * NullPointerException, an unknown one changes nothing, and a known
   * device's channels take the data points the entry lists for them.
   */
  method MergeDevice(project: FahProject, ud: UxDevice) returns (r: Outcome<()>)
    requires IndexConsistent(project)
    modifies IndexedChannels(project)`dataPointValues
    ensures r.Throws? <==> ud.serialNumber.None?
    ensures r.Throws? ==> r.ex == NullPointerException
    ensures forall c :: c in IndexedChannels(project) ==>
      c.dataPointValues == ApplyDataPoints(old(c.dataPointValues), DeviceDelta(ud, c.device.serialNumber, c.id))
  {
    var found := project.GetDeviceBySerialNumber(ud.serialNumber);
    if found.Throws? {
      return Throws(found.ex);
    }
    if found.value.Some? {
      UpdateDevice(project, ud, found.value.value);
    } else {
      forall c | c in IndexedChannels(project)
        ensures DeviceDelta(ud, c.device.serialNumber, c.id) == []
      {
        var d :| d in project.deviceBySerialNumber.Values && c in d.channelsById.Values;
        var s :| s in project.deviceBySerialNumber && project.deviceBySerialNumber[s] == d;
        var id :| id in d.channelsById && d.channelsById[id] == c;
        assert c.device == d && d.serialNumber == Some(s);
      }
    }
    return Ok(());
  }

  /** One known device of an update, with what it does to every indexed channel. */
  method UpdateDevice(project: FahProject, ud: UxDevice, d: Device)
    requires IndexConsistent(project)
    requires ud.serialNumber.Some? && ud.serialNumber.value in project.deviceBySerialNumber
    requires d == project.deviceBySerialNumber[ud.serialNumber.value]
    modifies d.channelsById.Values`dataPointValues
    ensures forall c :: c in IndexedChannels(project) ==>
      c.dataPointValues == ApplyDataPoints(old(c.dataPointValues), DeviceDelta(ud, c.device.serialNumber, c.id))
  {
    ghost var before := DataPointsOf(d.channelsById.Values);
    UpdateDeviceChannels(d, ud.channels);
    forall c | c in IndexedChannels(project)
      ensures c.dataPointValues == ApplyDataPoints(old(c.dataPointValues), DeviceDelta(ud, c.device.serialNumber, c.id))
    {
      var other :| other in project.deviceBySerialNumber.Values && c in other.channelsById.Values;
      var s :| s in project.deviceBySerialNumber && project.deviceBySerialNumber[s] == other;
      var id :| id in other.channelsById && other.channelsById[id] == c;
      assert c.device == other && other.serialNumber == Some(s);
      if other != d {
        assert s != ud.serialNumber.value;
        KeyedChannelsOwned(d);
      } else {
        MergedChannelUpdates(before, ud.channels, c);
      }
    }
  }

  // ---------------------------------------------------------------------
  // processProjectXml: strings and functions

  /** The string a PxString entry becomes, keyed by its parsed name id. */
  function StringEntry(x: PxString): Outcome<(int, FahString)> {
    match ParseIdUnboxed(x.nameId)
    case Throws(e) => Throws(e)
    case Ok(id) => Ok((id, FahString(id, x.value)))
  }

  /**
   * The function a PxFunction entry becomes: its parsed id, its FID name,
   * and the string its parsed name id finds among the strings registered so
   * far. The function id is parsed first.
   */
  function FunctionEntry(strings: map<int, FahString>, x: PxFunction): Outcome<(int, FahFunction)> {
    match ParseIdUnboxed(x.functionId)
    case Throws(e) => Throws(e)
    case Ok(id) =>
      match ParseIdUnboxed(x.nameId)
      case Throws(e) => Throws(e)
      case Ok(nameId) => Ok((id, FahFunction(id, x.name, if nameId in strings then Some(strings[nameId]) else None)))
  }

  /** The strings index after addPart of each entry in order, or the first entry's exception. */
  function IndexStrings(m: map<int, FahString>, xs: seq<PxString>): Outcome<map<int, FahString>>
    decreases |xs|
  {
    if xs == [] then Ok(m)
    else
      match IndexStrings(m, xs[..|xs| - 1])
      case Throws(e) => Throws(e)
      case Ok(before) =>
        match StringEntry(xs[|xs| - 1])
        case Throws(e) => Throws(e)
        case Ok(p) => Ok(before[p.0 := p.1])
  }

  /** The functions index after addPart of each entry in order, or the first entry's exception. */
  function IndexFunctions(strings: map<int, FahString>, m: map<int, FahFunction>, xs: seq<PxFunction>)
    : Outcome<map<int, FahFunction>>
    decreases |xs|
  {
    if xs == [] then Ok(m)
    else
      match IndexFunctions(strings, m, xs[..|xs| - 1])
      case Throws(e) => Throws(e)
      case Ok(before) =>
        match FunctionEntry(strings, xs[|xs| - 1])
        case Throws(e) => Throws(e)
        case Ok(p) => Ok(before[p.0 := p.1])
  }

  /** The strings section succeeds exactly when every entry's name id is present and hexadecimal. */
  lemma {:induction false} IndexStringsFails(m: map<int, FahString>, xs: seq<PxString>)
    ensures IndexStrings(m, xs).Ok? <==> forall j :: 0 <= j < |xs| ==> StringEntry(xs[j]).Ok?
    decreases |xs|
  {
    if xs != [] {
      var n := |xs| - 1;
      IndexStringsFails(m, xs[..n]);
      assert forall j :: 0 <= j < n ==> xs[..n][j] == xs[j];
    }
  }

  /** A name id holds the string of the last entry with that id. */
  lemma {:induction false} IndexStringsLastWins(m: map<int, FahString>, xs: seq<PxString>, k: nat)
    requires IndexStrings(m, xs).Ok? && k < |xs|
    requires forall j :: k < j < |xs| ==> ParseIdUnboxed(xs[j].nameId) != ParseIdUnboxed(xs[k].nameId)
    ensures StringEntry(xs[k]).Ok?
    ensures var id := StringEntry(xs[k]).value.0;
      id in IndexStrings(m, xs).value && IndexStrings(m, xs).value[id] == FahString(id, xs[k].value)
    decreases |xs|
  {
    var n := |xs| - 1;
    if k < n {
      IndexStringsLastWins(m, xs[..n], k);
    }
  }

  /** The functions section succeeds exactly when every entry's function id and name id are present and hexadecimal. */
  lemma {:induction false} IndexFunctionsFails(strings: map<int, FahString>, m: map<int, FahFunction>,
                                               xs: seq<PxFunction>)
    ensures IndexFunctions(strings, m, xs).Ok? <==> forall j :: 0 <= j < |xs| ==> FunctionEntry(strings, xs[j]).Ok?
    decreases |xs|
  {
    if xs != [] {
      var n := |xs| - 1;
      IndexFunctionsFails(strings, m, xs[..n]);
      assert forall j :: 0 <= j < n ==> xs[..n][j] == xs[j];
      if IndexFunctions(strings, m, xs).Ok? {
        assert IndexFunctions(strings, m, xs[..n]).Ok? && FunctionEntry(strings, xs[n]).Ok?;
      }
    }
  }

  /** A string entry whose name id does not parse stops the strings section. */
  predicate StringFails(x: PxString) {
    StringEntry(x).Throws?
  }

  /** A function entry whose function id or name id does not parse stops the functions section. */
  predicate FunctionFails(x: PxFunction) {
    ParseIdUnboxed(x.functionId).Throws? || ParseIdUnboxed(x.nameId).Throws?
  }

  /** The exception a failing function entry throws: its function id is parsed first. */
  function FunctionFailure(x: PxFunction): Exception
    requires FunctionFails(x)
  {
    if ParseIdUnboxed(x.functionId).Throws? then ParseIdUnboxed(x.functionId).ex else ParseIdUnboxed(x.nameId).ex
  }

  /** Whether a function entry fails does not depend on the strings registered so far. */
  lemma FunctionEntryFails(strings: map<int, FahString>, x: PxFunction)
    ensures FunctionEntry(strings, x).Throws? <==> FunctionFails(x)
    ensures FunctionFails(x) ==> FunctionEntry(strings, x).ex == FunctionFailure(x)
  {
  }

  /**
   * The strings section: each entry's name id is parsed, the string built
   * with its value and added to the project, until an id fails to parse.
   */
  method ProcessStrings(project: FahProject, xs: seq<PxString>) returns (r: Outcome<()>)
    modifies project`stringByNameId, project`functionByFunctionId, project`floorByUid
    modifies project`roomByUid, project`deviceBySerialNumber, project`channelByName
    ensures r.Throws? <==> FirstWhere(xs, StringFails) < |xs|
    ensures r.Throws? ==> r.ex == StringEntry(xs[FirstWhere(xs, StringFails)]).ex
    ensures project.Ix().(strings := map[]) == old(project.Ix()).(strings := map[])
    ensures r.Ok? ==> IndexStrings(old(project.stringByNameId), xs) == Ok(project.stringByNameId)
  {
    var k := 0;
    while k < |xs|
      invariant 0 <= k <= FirstWhere(xs, StringFails)
      invariant IndexStrings(old(project.stringByNameId), xs[..k]) == Ok(project.stringByNameId)
      invariant project.Ix().(strings := map[]) == old(project.Ix()).(strings := map[])
    {
      FirstWhereAt(xs, StringFails, k);
      var id := ParseIdUnboxed(xs[k].nameId);
      if id.Throws? {
        return Throws(id.ex);
      }
      var added := project.AddPart(StringPart(FahString(id.value, xs[k].value)));
      assert xs[..k + 1][..k] == xs[..k];
      k := k + 1;
    }
    assert xs[..k] == xs;
    return Ok(());
  }

  /**
   * The functions section: each entry's function id is parsed, its FID name
   * set, its label looked up among the strings by its parsed name id, and
   * the function added to the project, until an id fails to parse.
   */
  method ProcessFunctions(project: FahProject, xs: seq<PxFunction>) returns (r: Outcome<()>)
    modifies project`stringByNameId, project`functionByFunctionId, project`floorByUid
    modifies project`roomByUid, project`deviceBySerialNumber, project`channelByName
    ensures r.Throws? <==> FirstWhere(xs, FunctionFails) < |xs|
    ensures r.Throws? ==> r.ex == FunctionFailure(xs[FirstWhere(xs, FunctionFails)])
    ensures project.Ix().(functions := map[]) == old(project.Ix()).(functions := map[])
    ensures r.Ok? ==>
      IndexFunctions(project.stringByNameId, old(project.functionByFunctionId), xs) == Ok(project.functionByFunctionId)
  {
    ghost var strings := project.stringByNameId;
    var k := 0;
    while k < |xs|
      invariant 0 <= k <= FirstWhere(xs, FunctionFails)
      invariant project.stringByNameId == strings
      invariant IndexFunctions(strings, old(project.functionByFunctionId), xs[..k]) == Ok(project.functionByFunctionId)
      invariant project.Ix().(functions := map[]) == old(project.Ix()).(functions := map[])
    {
      FirstWhereAt(xs, FunctionFails, k);
      var id := ParseIdUnboxed(xs[k].functionId);
      if id.Throws? {
        return Throws(id.ex);
      }
      var nameId := ParseIdUnboxed(xs[k].nameId);
      if nameId.Throws? {
        return Throws(nameId.ex);
      }
      var f := FahFunction(id.value, xs[k].name, project.GetStringByNameId(nameId.value));
      var added := project.AddPart(FunctionPart(f));
      assert xs[..k + 1][..k] == xs[..k];
      k := k + 1;
    }
    assert xs[..k] == xs;
    return Ok(());
  }

  // ---------------------------------------------------------------------
  // processProjectXml: floors and rooms

  /** A room entry with a null uid stops its floor's rooms. */
  predicate RoomFails(xr: PxRoom) {
    xr.uid.None?
  }

  /** A floor entry stops the floors section when one of its rooms, or the floor itself, has a null uid. */
  predicate FloorFails(xf: PxFloor) {
    FirstWhere(xf.rooms, RoomFails) < |xf.rooms| || xf.uid.None?
  }

  /** The rooms index after each room built from xrs is added, in order. */
  function RoomIndex(m: map<string, Room>, xrs: seq<PxRoom>, made: seq<Room>): map<string, Room>
    requires |xrs| == |made| && forall j :: 0 <= j < |xrs| ==> xrs[j].uid.Some?
    decreases |xrs|
  {
    if xrs == [] then m
    else RoomIndex(m, xrs[..|xrs| - 1], made[..|made| - 1])[xrs[|xrs| - 1].uid.value := made[|made| - 1]]
  }

  /** A room is indexed under exactly the uids its entries list, by the room built from the last entry with that uid. */
  lemma {:induction false} RoomIndexLastWins(m: map<string, Room>, xrs: seq<PxRoom>, made: seq<Room>, k: nat)
    requires |xrs| == |made| && forall j :: 0 <= j < |xrs| ==> xrs[j].uid.Some?
    requires k < |xrs| && forall j :: k < j < |xrs| ==> xrs[j].uid != xrs[k].uid
    ensures xrs[k].uid.value in RoomIndex(m, xrs, made) && RoomIndex(m, xrs, made)[xrs[k].uid.value] == made[k]
    decreases |xrs|
  {
    var n := |xrs| - 1;
    if k < n {
      RoomIndexLastWins(m, xrs[..n], made[..n], k);
    }
  }

  /** Each room of made is what the loader builds on floor f for the entry at its position. */
  ghost predicate RoomsBuilt(f: Floor, xrs: seq<PxRoom>, made: seq<Room>)
    requires |xrs| == |made|
    reads (set rm | rm in made)`name
    decreases |xrs|
  {
    xrs == []
    || (RoomsBuilt(f, xrs[..|xrs| - 1], made[..|made| - 1])
        && RoomBuilt(f, xrs[|xrs| - 1], made[|made| - 1]))
  }

  /** rm is what the loader builds on floor f for the room entry xr. */
  ghost predicate RoomBuilt(f: Floor, xr: PxRoom, rm: Room)
    reads rm`name
  {
    rm.floor == f && rm.uid == xr.uid && rm.name == xr.name
  }

  /** RoomsBuilt, entry by entry. */
  lemma {:induction false} RoomsBuiltEach(f: Floor, xrs: seq<PxRoom>, made: seq<Room>, j: nat)
    requires |xrs| == |made| && j < |xrs| && RoomsBuilt(f, xrs, made)
    ensures RoomBuilt(f, xrs[j], made[j])
    decreases |xrs|
  {
    var n := |xrs| - 1;
    if j < n {
      RoomsBuiltEach(f, xrs[..n], made[..n], j);
    }
  }

  /**
   * f is what the loader builds for the floor entry xf, with rooms made: its
   * uid, name and level, and exactly the rooms built on it.
   */
  ghost predicate FloorBuilt(xf: PxFloor, f: Floor, made: seq<Room>)
    reads f`name, f`level, f`rooms, (set rm | rm in made)`name
  {
    f.uid == xf.uid && f.name == xf.name && f.level == xf.level
    && |made| == |xf.rooms| && f.rooms == (set rm | rm in made) && RoomsBuilt(f, xf.rooms, made)
  }

  /** Every room an index fold adds is one of the rooms built. */
  lemma {:induction false} RoomIndexValues(m: map<string, Room>, xrs: seq<PxRoom>, made: seq<Room>)
    requires |xrs| == |made| && forall j :: 0 <= j < |xrs| ==> xrs[j].uid.Some?
    ensures RoomIndex(m, xrs, made).Values <= m.Values + set rm | rm in made
    decreases |xrs|
  {
    if xrs != [] {
      var n := |xrs| - 1;
      RoomIndexValues(m, xrs[..n], made[..n]);
      var before := RoomIndex(m, xrs[..n], made[..n]);
      forall rm | rm in RoomIndex(m, xrs, made).Values
        ensures rm in m.Values + set rm | rm in made
      {
        var uid :| uid in RoomIndex(m, xrs, made) && RoomIndex(m, xrs, made)[uid] == rm;
        if uid != xrs[n].uid.value {
          assert before[uid] == rm;
          assert rm in before.Values;
          if rm in set r | r in made[..n] {
            var i :| 0 <= i < n && made[..n][i] == rm;
            assert made[i] == rm;
          }
        }
      }
    }
  }

  /**
   * One floor entry: the floor is built with its name and level, then its
   * rooms, and the floor itself is added last. A null uid is a
   * NullPointerException from the uid index.
   */
  method ProcessFloor(project: FahProject, xf: PxFloor) returns (r: Outcome<Floor>, ghost made: seq<Room>)
    modifies project`stringByNameId, project`functionByFunctionId, project`floorByUid
    modifies project`roomByUid, project`deviceBySerialNumber, project`channelByName
    ensures r.Throws? <==> FloorFails(xf)
    ensures r.Throws? ==> r.ex == NullPointerException
    ensures project.Ix().(floors := map[], rooms := map[]) == old(project.Ix()).(floors := map[], rooms := map[])
    ensures r.Ok? ==> fresh(r.value) && FloorBuilt(xf, r.value, made)
    ensures r.Ok? ==> forall i :: 0 <= i < |made| ==> fresh(made[i]) && made[i].devices == {}
    ensures r.Ok? ==> project.roomByUid == RoomIndex(old(project.roomByUid), xf.rooms, made)
    ensures r.Ok? ==> project.floorByUid == old(project.floorByUid)[xf.uid.value := r.value]
    ensures r.Ok? ==> forall rm :: rm in RoomsOf(project) ==> rm in old(RoomsOf(project)) || (fresh(rm) && rm.devices == {})
  {
    var f := new Floor(xf.uid);
    f.name := xf.name;
    f.level := xf.level;
    var rooms;
    rooms, made := ProcessRooms(project, f, xf.rooms);
    if rooms.Throws? {
      return Throws(rooms.ex), made;
    }
    RoomIndexValues(old(project.roomByUid), xf.rooms, made);
    var added := project.AddPart(FloorPart(f));
    if added.Throws? {
      return Throws(added.ex), made;
    }
    return Ok(f), made;
  }

  /**
   * One room entry: the room is built on floor f, which registers it with
   * the floor, named, and added to the project; a null uid is a
   * NullPointerException from the uid index.
   */
  method ProcessRoom(project: FahProject, f: Floor, xr: PxRoom) returns (r: Outcome<Room>)
    modifies f`rooms, project`stringByNameId, project`functionByFunctionId, project`floorByUid
    modifies project`roomByUid, project`deviceBySerialNumber, project`channelByName
    ensures r.Throws? <==> RoomFails(xr)
    ensures r.Throws? ==> r.ex == NullPointerException && project.Ix() == old(project.Ix())
    ensures r.Ok? ==> fresh(r.value) && RoomBuilt(f, xr, r.value) && r.value.devices == {}
    ensures r.Ok? ==> f.rooms == old(f.rooms) + {r.value}
    ensures r.Ok? ==> project.Ix() == old(project.Ix()).(rooms := old(project.roomByUid)[xr.uid.value := r.value])
  {
    var room := new Room(f, xr.uid);
    room.name := xr.name;
    var added := project.AddPart(RoomPart(room));
    if added.Throws? {
      return Throws(added.ex);
    }
    return Ok(room);
  }

  /** The two per-entry folds of ProcessRooms, extended by one built room. */
  lemma RoomsStep(f: Floor, xrs: seq<PxRoom>, made: seq<Room>, room: Room, rooms: map<string, Room>)
    requires |made| < |xrs| && forall j :: 0 <= j <= |made| ==> xrs[j].uid.Some?
    requires RoomsBuilt(f, xrs[..|made|], made) && RoomBuilt(f, xrs[|made|], room)
    ensures RoomsBuilt(f, xrs[..|made| + 1], made + [room])
    ensures RoomIndex(rooms, xrs[..|made| + 1], made + [room])
         == RoomIndex(rooms, xrs[..|made|], made)[xrs[|made|].uid.value := room]
  {
    var k := |made|;
    assert xrs[..k + 1][..k] == xrs[..k];
    assert (made + [room])[..k] == made;
  }

  /**
   * The rooms of a floor entry, in order: each is built on floor f (which
   * registers it with the floor), named and added to the project, until one
   * has a null uid.
   */
  method ProcessRooms(project: FahProject, f: Floor, xrs: seq<PxRoom>) returns (r: Outcome<()>, ghost made: seq<Room>)
    requires f.rooms == {}
    modifies f`rooms, project`stringByNameId, project`functionByFunctionId, project`floorByUid
    modifies project`roomByUid, project`deviceBySerialNumber, project`channelByName
    ensures r.Throws? <==> FirstWhere(xrs, RoomFails) < |xrs|
    ensures r.Throws? ==> r.ex == NullPointerException
    ensures project.Ix().(rooms := map[]) == old(project.Ix()).(rooms := map[])
    ensures r.Ok? ==> forall i :: 0 <= i < |made| ==> fresh(made[i]) && made[i].devices == {}
    ensures r.Ok? ==> |made| == |xrs| && f.rooms == (set rm | rm in made) && RoomsBuilt(f, xrs, made)
    ensures r.Ok? ==> project.roomByUid == RoomIndex(old(project.roomByUid), xrs, made)
  {
    made := [];
    var k := 0;
    while k < |xrs|
      invariant 0 <= k <= FirstWhere(xrs, RoomFails) && |made| == k
      invariant f.rooms == set rm | rm in made
      invariant RoomsBuilt(f, xrs[..k], made)
      invariant project.roomByUid == RoomIndex(old(project.roomByUid), xrs[..k], made)
      invariant project.Ix().(rooms := map[]) == old(project.Ix()).(rooms := map[])
      invariant forall i :: 0 <= i < k ==> fresh(made[i]) && made[i].devices == {}
    {
      FirstWhereAt(xrs, RoomFails, k);
      var room := ProcessRoom(project, f, xrs[k]);
      if room.Throws? {
        return Throws(room.ex), made;
      }
      RoomsStep(f, xrs, made, room.value, old(project.roomByUid));
      made := made + [room.value];
      k := k + 1;
    }
    assert xrs[..k] == xrs;
    return Ok(()), made;
  }

  /** The floors index after each floor built from xfs is added, in order. */
  function FloorIndex(m: map<string, Floor>, xfs: seq<PxFloor>, made: seq<Floor>): map<string, Floor>
    requires |xfs| == |made| && forall j :: 0 <= j < |xfs| ==> !FloorFails(xfs[j])
    decreases |xfs|
  {
    if xfs == [] then m
    else
      var n := |xfs| - 1;
      assert !FloorFails(xfs[n]);
      FloorIndex(m, xfs[..n], made[..n])[xfs[n].uid.value := made[n]]
  }

  /** rooms holds one room per room entry of each floor entry. */
  predicate RoomCounts(xfs: seq<PxFloor>, rooms: seq<seq<Room>>)
    decreases |xfs|
  {
    |xfs| == |rooms|
    && (xfs == [] || (RoomCounts(xfs[..|xfs| - 1], rooms[..|rooms| - 1]) && |rooms[|rooms| - 1]| == |xfs[|xfs| - 1].rooms|))
  }

  /** The rooms index after the rooms of each floor are added, floor by floor. */
  function FloorsRoomIndex(m: map<string, Room>, xfs: seq<PxFloor>, rooms: seq<seq<Room>>): map<string, Room>
    requires RoomCounts(xfs, rooms) && forall j :: 0 <= j < |xfs| ==> !FloorFails(xfs[j])
    decreases |xfs|
  {
    if xfs == [] then m
    else
      var n := |xfs| - 1;
      assert !FloorFails(xfs[n]);
      RoomIndex(FloorsRoomIndex(m, xfs[..n], rooms[..n]), xfs[n].rooms, rooms[n])
  }

  /** Each floor of made, with its rooms, is what the loader builds for the entry at its position. */
  ghost predicate AllFloorsBuilt(xfs: seq<PxFloor>, made: seq<Floor>, rooms: seq<seq<Room>>)
    requires |xfs| == |made| == |rooms|
    reads (set f | f in made)`name, (set f | f in made)`level, (set f | f in made)`rooms
    reads (set rs, rm | rs in rooms && rm in rs :: rm)`name
    decreases |xfs|
  {
    xfs == []
    || (AllFloorsBuilt(xfs[..|xfs| - 1], made[..|made| - 1], rooms[..|rooms| - 1])
        && FloorBuilt(xfs[|xfs| - 1], made[|made| - 1], rooms[|rooms| - 1]))
  }

  /** The three per-entry folds of ProcessFloors, extended by one built floor. */
  lemma FloorsStep(xfs: seq<PxFloor>, made: seq<Floor>, rooms: seq<seq<Room>>, f: Floor, frooms: seq<Room>,
                   floorIx: map<string, Floor>, roomIx: map<string, Room>)
    requires |made| < |xfs| && |made| == |rooms|
    requires forall j :: 0 <= j <= |made| ==> !FloorFails(xfs[j])
    requires RoomCounts(xfs[..|made|], rooms)
    requires AllFloorsBuilt(xfs[..|made|], made, rooms) && FloorBuilt(xfs[|made|], f, frooms)
    ensures AllFloorsBuilt(xfs[..|made| + 1], made + [f], rooms + [frooms])
    ensures FloorIndex(floorIx, xfs[..|made| + 1], made + [f])
         == FloorIndex(floorIx, xfs[..|made|], made)[xfs[|made|].uid.value := f]
    ensures RoomCounts(xfs[..|made| + 1], rooms + [frooms])
    ensures FloorsRoomIndex(roomIx, xfs[..|made| + 1], rooms + [frooms])
         == RoomIndex(FloorsRoomIndex(roomIx, xfs[..|made|], rooms), xfs[|made|].rooms, frooms)
  {
    var k := |made|;
    assert xfs[..k + 1][..k] == xfs[..k];
    assert (made + [f])[..k] == made;
    assert (rooms + [frooms])[..k] == rooms;
  }

  /**
   * The floors section: each floor entry in order, with its rooms, until a
   * floor or a room has a null uid.
   */
  method ProcessFloors(project: FahProject, xfs: seq<PxFloor>)
    returns (r: Outcome<()>, ghost made: seq<Floor>, ghost rooms: seq<seq<Room>>)
    modifies project`stringByNameId, project`functionByFunctionId, project`floorByUid
    modifies project`roomByUid, project`deviceBySerialNumber, project`channelByName
    ensures r.Throws? <==> FirstWhere(xfs, FloorFails) < |xfs|
    ensures r.Throws? ==> r.ex == NullPointerException
    ensures project.Ix().(floors := map[], rooms := map[]) == old(project.Ix()).(floors := map[], rooms := map[])
    ensures r.Ok? ==> |made| == |xfs| && |rooms| == |xfs| && AllFloorsBuilt(xfs, made, rooms)
    ensures r.Ok? ==> RoomCounts(xfs, rooms)
    ensures r.Ok? ==> project.floorByUid == FloorIndex(old(project.floorByUid), xfs, made)
    ensures r.Ok? ==> project.roomByUid == FloorsRoomIndex(old(project.roomByUid), xfs, rooms)
    ensures r.Ok? ==> forall rm :: rm in RoomsOf(project) ==> rm in old(RoomsOf(project)) || (fresh(rm) && rm.devices == {})
  {
    made, rooms := [], [];
    var k := 0;
    while k < |xfs|
      invariant 0 <= k <= FirstWhere(xfs, FloorFails) && |made| == k && |rooms| == k
      invariant RoomCounts(xfs[..k], rooms)
      invariant AllFloorsBuilt(xfs[..k], made, rooms)
      invariant project.floorByUid == FloorIndex(old(project.floorByUid), xfs[..k], made)
      invariant project.roomByUid == FloorsRoomIndex(old(project.roomByUid), xfs[..k], rooms)
      invariant project.Ix().(floors := map[], rooms := map[]) == old(project.Ix()).(floors := map[], rooms := map[])
      invariant forall rm :: rm in RoomsOf(project) ==> rm in old(RoomsOf(project)) || (fresh(rm) && rm.devices == {})
    {
      var step;
      step, made, rooms := ProcessFloorAt(project, xfs, k, made, rooms, old(project.floorByUid), old(project.roomByUid));
      if step.Throws? {
        return step, made, rooms;
      }
      k := k + 1;
    }
    assert xfs[..k] == xfs;
    return Ok(()), made, rooms;
  }

  /** One iteration of ProcessFloors: the floor entry after those already built, and the folds extended by it. */
  method ProcessFloorAt(project: FahProject, xfs: seq<PxFloor>, k: nat, ghost made: seq<Floor>, ghost rooms: seq<seq<Room>>,
                        ghost floorIx: map<string, Floor>, ghost roomIx: map<string, Room>)
    returns (r: Outcome<()>, ghost made': seq<Floor>, ghost rooms': seq<seq<Room>>)
    requires k == |made| == |rooms| && k < |xfs| && k <= FirstWhere(xfs, FloorFails)
    requires RoomCounts(xfs[..|made|], rooms) && AllFloorsBuilt(xfs[..|made|], made, rooms)
    requires project.floorByUid == FloorIndex(floorIx, xfs[..|made|], made)
    requires project.roomByUid == FloorsRoomIndex(roomIx, xfs[..|made|], rooms)
    modifies project`stringByNameId, project`functionByFunctionId, project`floorByUid
    modifies project`roomByUid, project`deviceBySerialNumber, project`channelByName
    ensures r.Throws? <==> FirstWhere(xfs, FloorFails) == |made|
    ensures r.Throws? ==> r.ex == NullPointerException
    ensures project.Ix().(floors := map[], rooms := map[]) == old(project.Ix()).(floors := map[], rooms := map[])
    ensures r.Ok? ==> |made'| == |made| + 1 && |rooms'| == |made| + 1
    ensures r.Ok? ==> RoomCounts(xfs[..|made| + 1], rooms') && AllFloorsBuilt(xfs[..|made| + 1], made', rooms')
    ensures r.Ok? ==> project.floorByUid == FloorIndex(floorIx, xfs[..|made| + 1], made')
    ensures r.Ok? ==> project.roomByUid == FloorsRoomIndex(roomIx, xfs[..|made| + 1], rooms')
    ensures r.Ok? ==> forall rm :: rm in RoomsOf(project) ==> rm in old(RoomsOf(project)) || (fresh(rm) && rm.devices == {})
  {
    FirstWhereAt(xfs, FloorFails, k);
    var f, frooms := ProcessFloor(project, xfs[k]);
    if f.Throws? {
      return Throws(f.ex), made, rooms;
    }
    FloorsStep(xfs, made, rooms, f.value, frooms, floorIx, roomIx);
    return Ok(()), made + [f.value], rooms + [frooms];
  }

  // ---------------------------------------------------------------------
  // processProjectXml: channels

  /** A channel's functionId attribute, parsed and unboxed: a missing attribute is a NullPointerException. */
  function ChannelFunctionId(xc: PxChannel): Outcome<int> {
    ParseIdUnboxed(FindKV(xc.attributes, "functionId"))
  }

  /** The function a channel entry gets: the one registered under its function id, if any. */
  function ChannelFunction(functions: map<int, FahFunction>, xc: PxChannel): Outcome<Option<FahFunction>> {
    match ChannelFunctionId(xc)
    case Throws(e) => Throws(e)
    case Ok(id) => Ok(if id in functions then Some(functions[id]) else None)
  }

  /** A channel entry without a functionId attribute aborts the load. */
  lemma ChannelWithoutFunctionIdThrows(functions: map<int, FahFunction>, xc: PxChannel)
    requires forall i :: 0 <= i < |xc.attributes| ==> xc.attributes[i].name != Some("functionId")
    ensures ChannelFunction(functions, xc) == Throws(NullPointerException)
  {
    FindKVFirst(xc.attributes, "functionId");
  }

  /** A registered hexadecimal function id gives the channel that function. */
  lemma ChannelFunctionRegistered(functions: map<int, FahFunction>, xc: PxChannel, id: string)
    requires id != [] && AllDigits(id, 16) && DigitsValue(id, 16) <= IntMax
    requires FindKV(xc.attributes, "functionId") == Some(id) && DigitsValue(id, 16) in functions
    ensures ChannelFunction(functions, xc) == Ok(Some(functions[DigitsValue(id, 16)]))
  {
    ParseIdHex(id);
  }

  /**
   * c is what the loader builds for the channel entry xc of device d: built
   * by the factory for its function, named by its displayName attribute,
   * holding the first value of each data point, and added to project.
   */
  ghost predicate ChannelBuilt(functions: map<int, FahFunction>, registry: Registry, project: FahProject, d: Device,
                               xc: PxChannel, c: Channel)
    reads c`fahFunction, c`name, c`dataPointValues, c`inputDataPoints, c`project
  {
    ChannelFunction(functions, xc) == Ok(c.fahFunction)
    && c.device == d && c.id == xc.i && c.kind == ChannelKindFor(registry, c.fahFunction)
    && c.name == FindKV(xc.attributes, "displayName")
    && c.dataPointValues == ApplyDataPoints(map[], xc.inputs + xc.outputs) && c.inputDataPoints == {}
    && c.project == Some(project)
  }

  /** Each channel of made is what the loader builds for the entry of xcs at its position. */
  ghost predicate AllChannelsBuilt(functions: map<int, FahFunction>, registry: Registry, project: FahProject,
                                   d: Device, xcs: seq<PxChannel>, made: seq<Channel>)
    reads (set c | c in made)`fahFunction, (set c | c in made)`name, (set c | c in made)`dataPointValues
    reads (set c | c in made)`inputDataPoints, (set c | c in made)`project
    ensures AllChannelsBuilt(functions, registry, project, d, xcs, made) ==> |xcs| == |made|
    decreases |xcs|
  {
    |xcs| == |made|
    && (xcs == []
        || (AllChannelsBuilt(functions, registry, project, d, xcs[..|xcs| - 1], made[..|made| - 1])
            && ChannelBuilt(functions, registry, project, d, xcs[|xcs| - 1], made[|made| - 1])))
  }

  /** The name index after adding a channel built from xc: indexed under its displayName when it has one. */
  function NameChannel(m: map<string, Channel>, xc: PxChannel, c: Channel): map<string, Channel> {
    match FindKV(xc.attributes, "displayName")
    case None => m
    case Some(n) => m[n := c]
  }

  /**
   * One channel entry: the function is looked up, the channel factory builds
   * the channel (which registers it with its device), then its name and its
   * data points are set and it is added to the project. Only the function
   * id can fail.
   */
  method ProcessChannel(project: FahProject, registry: Registry, d: Device, xc: PxChannel) returns (r: Outcome<Channel>)
    modifies d`channelsById, project`stringByNameId, project`functionByFunctionId, project`floorByUid
    modifies project`roomByUid, project`deviceBySerialNumber, project`channelByName
    ensures r.Throws? <==> ChannelFunctionId(xc).Throws?
    ensures r.Throws? ==> r.ex == ChannelFunctionId(xc).ex
    ensures r.Throws? ==> d.channelsById == old(d.channelsById) && project.Ix() == old(project.Ix())
    ensures r.Ok? ==> fresh(r.value) && ChannelBuilt(old(project.functionByFunctionId), registry, project, d, xc, r.value)
    ensures r.Ok? ==> d.channelsById == old(d.channelsById)[xc.i := r.value]
    ensures r.Ok? ==> project.channelByName == NameChannel(old(project.channelByName), xc, r.value)
    ensures r.Ok? ==> project.Ix().(channels := map[]) == old(project.Ix()).(channels := map[])
  {
    var fn := ChannelFunction(project.functionByFunctionId, xc);
    if fn.Throws? {
      return Throws(fn.ex);
    }
    var c := CreateChannel(registry, d, xc.i, fn.value);
    c.SetName(FindKV(xc.attributes, "displayName"));
    SetDataPoints(c, xc.inputs + xc.outputs);
    var added := project.AddPart(ChannelPart(c));
    return Ok(c);
  }

  /** A channel entry whose function id fails: building it throws. */
  predicate ChannelFails(xc: PxChannel) {
    ChannelFunctionId(xc).Throws?
  }

  /** A device's channel map after each built channel is registered under its entry's id, in order. */
  function ChannelIdIndex(m: map<string, Channel>, xcs: seq<PxChannel>, made: seq<Channel>): map<string, Channel>
    requires |xcs| == |made|
    decreases |xcs|
  {
    if xcs == [] then m
    else ChannelIdIndex(m, xcs[..|xcs| - 1], made[..|made| - 1])[xcs[|xcs| - 1].i := made[|made| - 1]]
  }

  /** The project's name index after each built channel is added, in order. */
  function ChannelNameIndex(m: map<string, Channel>, xcs: seq<PxChannel>, made: seq<Channel>): map<string, Channel>
    requires |xcs| == |made|
    decreases |xcs|
  {
    if xcs == [] then m
    else NameChannel(ChannelNameIndex(m, xcs[..|xcs| - 1], made[..|made| - 1]), xcs[|xcs| - 1], made[|made| - 1])
  }

  /**
   * The outcome of processing a device's channel entries: a channel built
   * from each entry, the device's channel map and the project's name index
   * folded from before as ChannelIdIndex and ChannelNameIndex say.
   */
  ghost predicate ChannelsLoaded(functions: map<int, FahFunction>, registry: Registry, project: FahProject, d: Device,
                                 xcs: seq<PxChannel>, made: seq<Channel>, idsBefore: map<string, Channel>,
                                 namesBefore: map<string, Channel>, ids: map<string, Channel>, names: map<string, Channel>)
    reads (set c | c in made)`fahFunction, (set c | c in made)`name, (set c | c in made)`dataPointValues
    reads (set c | c in made)`inputDataPoints, (set c | c in made)`project
  {
    AllChannelsBuilt(functions, registry, project, d, xcs, made)
    && (ids, names) == (ChannelIdIndex(idsBefore, xcs, made), ChannelNameIndex(namesBefore, xcs, made))
  }

  /** A device has a channel under exactly the ids its entries list, and it is the one built from the last entry with that id. */
  lemma {:induction false} ChannelIdIndexLastWins(xcs: seq<PxChannel>, made: seq<Channel>, k: nat)
    requires |xcs| == |made| && k < |xcs|
    requires forall j :: k < j < |xcs| ==> xcs[j].i != xcs[k].i
    ensures xcs[k].i in ChannelIdIndex(map[], xcs, made) && ChannelIdIndex(map[], xcs, made)[xcs[k].i] == made[k]
    decreases |xcs|
  {
    var n := |xcs| - 1;
    if k < n {
      ChannelIdIndexLastWins(xcs[..n], made[..n], k);
    }
  }

  /** Only listed ids are keys of a device's channel map. */
  lemma {:induction false} ChannelIdIndexKeys(xcs: seq<PxChannel>, made: seq<Channel>, id: string)
    requires |xcs| == |made|
    ensures id in ChannelIdIndex(map[], xcs, made) <==> exists j :: 0 <= j < |xcs| && xcs[j].i == id
    decreases |xcs|
  {
    if xcs != [] {
      var n := |xcs| - 1;
      ChannelIdIndexKeys(xcs[..n], made[..n], id);
      if exists j :: 0 <= j < n && xcs[..n][j].i == id {
        var j :| 0 <= j < n && xcs[..n][j].i == id;
        assert xcs[j].i == id;
      }
    }
  }

  /** A channel without a displayName attribute is not in the name index, whatever its position. */
  lemma {:induction false} UnnamedChannelsNotIndexed(m: map<string, Channel>, xcs: seq<PxChannel>, made: seq<Channel>)
    requires |xcs| == |made|
    requires forall j :: 0 <= j < |xcs| ==> FindKV(xcs[j].attributes, "displayName").None?
    ensures ChannelNameIndex(m, xcs, made) == m
    decreases |xcs|
  {
    if xcs != [] {
      UnnamedChannelsNotIndexed(m, xcs[..|xcs| - 1], made[..|made| - 1]);
    }
  }

  /** The three per-entry folds of ProcessChannels, extended by one built channel. */
  lemma ChannelsStep(functions: map<int, FahFunction>, registry: Registry, project: FahProject, d: Device,
                     xcs: seq<PxChannel>, made: seq<Channel>, c: Channel, idsBefore: map<string, Channel>,
                     namesBefore: map<string, Channel>, ids: map<string, Channel>, names: map<string, Channel>)
    requires |made| < |xcs|
    requires ChannelsLoaded(functions, registry, project, d, xcs[..|made|], made, idsBefore, namesBefore, ids, names)
    requires ChannelBuilt(functions, registry, project, d, xcs[|made|], c)
    ensures ChannelsLoaded(functions, registry, project, d, xcs[..|made| + 1], made + [c], idsBefore, namesBefore,
                           ids[xcs[|made|].i := c], NameChannel(names, xcs[|made|], c))
  {
    var k := |made|;
    assert xcs[..k + 1][..k] == xcs[..k];
    assert (made + [c])[..k] == made;
  }

  /**
   * A device's channel entries, in order, until one's function id fails:
   * each is built, registered with the device and added to the project.
   */
  method ProcessChannels(project: FahProject, registry: Registry, d: Device, xcs: seq<PxChannel>)
    returns (r: Outcome<()>, ghost made: seq<Channel>)
    modifies d`channelsById, project`stringByNameId, project`functionByFunctionId, project`floorByUid
    modifies project`roomByUid, project`deviceBySerialNumber, project`channelByName
    ensures r.Throws? <==> FirstWhere(xcs, ChannelFails) < |xcs|
    ensures r.Throws? ==> r.ex == ChannelFunctionId(xcs[FirstWhere(xcs, ChannelFails)]).ex
    ensures project.Ix().(channels := map[]) == old(project.Ix()).(channels := map[])
    ensures r.Ok? ==> ChannelsLoaded(old(project.functionByFunctionId), registry, project, d, xcs, made,
                                     old(d.channelsById), old(project.channelByName), d.channelsById, project.channelByName)
  {
    made := [];
    ghost var functions := project.functionByFunctionId;
    var k := 0;
    while k < |xcs|
      invariant 0 <= k <= FirstWhere(xcs, ChannelFails) && |made| == k
      invariant project.Ix().(channels := map[]) == old(project.Ix()).(channels := map[])
      invariant ChannelsLoaded(functions, registry, project, d, xcs[..k], made, old(d.channelsById),
                               old(project.channelByName), d.channelsById, project.channelByName)
    {
      var step;
      step, made := ProcessChannelAt(project, registry, d, xcs, k, made, functions, old(d.channelsById),
                                     old(project.channelByName));
      FirstWhereAt(xcs, ChannelFails, k);
      if step.Throws? {
        return step, made;
      }
      k := k + 1;
    }
    assert xcs[..k] == xcs;
    return Ok(()), made;
  }

  /** One pass of the ProcessChannels loop: the entry at k is built, or it is where the loop stops. */
  method ProcessChannelAt(project: FahProject, registry: Registry, d: Device, xcs: seq<PxChannel>, k: nat,
                          ghost made: seq<Channel>, ghost functions: map<int, FahFunction>,
                          ghost ids: map<string, Channel>, ghost names: map<string, Channel>)
    returns (r: Outcome<()>, ghost made': seq<Channel>)
    requires k < |xcs| && k <= FirstWhere(xcs, ChannelFails) && |made| == k
    requires project.functionByFunctionId == functions
    requires ChannelsLoaded(functions, registry, project, d, xcs[..k], made, ids, names, d.channelsById,
                            project.channelByName)
    modifies d`channelsById, project`stringByNameId, project`functionByFunctionId, project`floorByUid
    modifies project`roomByUid, project`deviceBySerialNumber, project`channelByName
    ensures project.Ix().(channels := map[]) == old(project.Ix()).(channels := map[])
    ensures ExceptionOf(r) == ExceptionOf(ChannelFunctionId(xcs[k]))
    ensures r.Ok? ==> ChannelsLoaded(functions, registry, project, d, xcs[..k + 1], made', ids, names, d.channelsById,
                                     project.channelByName)
  {
    made' := made;
    var c := ProcessChannel(project, registry, d, xcs[k]);
    r := Ok(());
    if c.Throws? {
      r := Throws(c.ex);
    } else {
      ChannelsStep(functions, registry, project, d, xcs, made, c.value, ids, names, old(d.channelsById),
                   old(project.channelByName));
      made' := made + [c.value];
    }
  }

  // ---------------------------------------------------------------------
  // processProjectXml: devices

  /**
   * The room lookup as written: getRoomByUid of the room attribute. A
   * device entry without a room attribute looks up null, which the TreeMap
   * refuses with a NullPointerException.
   */
  function DeviceRoomAsWritten(project: FahProject, attributes: seq<PxKeyValue>): (r: Outcome<Option<Room>>)
    reads project
    ensures FindKV(attributes, "room").None? <==> r.Throws?
    ensures r.Ok? ==> r.value == RoomFor(project.roomByUid, attributes)
  {
    project.GetRoomByUid(FindKV(attributes, "room"))
  }

  /** A device entry that names no room makes the lookup as written throw. */
  lemma RoomlessDeviceThrows(project: FahProject, attributes: seq<PxKeyValue>)
    requires forall i :: 0 <= i < |attributes| ==> attributes[i].name != Some("room")
    ensures DeviceRoomAsWritten(project, attributes) == Throws(NullPointerException)
  {
    FindKVFirst(attributes, "room");
  }

  /**
   * The room lookup the loader uses: a device without a room attribute is
   * placed in no room, as setRoom(null) allows; otherwise the room indexed
   * under the attribute, if any.
   */
  function RoomFor(rooms: map<string, Room>, attributes: seq<PxKeyValue>): (r: Option<Room>)
    ensures FindKV(attributes, "room").None? ==> r.None?
    ensures FindKV(attributes, "room").Some? ==>
      (r.Some? <==> FindKV(attributes, "room").value in rooms)
      && (r.Some? ==> r.value == rooms[FindKV(attributes, "room").value])
  {
    match FindKV(attributes, "room")
    case None => None
    case Some(uid) => if uid in rooms then Some(rooms[uid]) else None
  }

  /** Wherever the lookup as written does not throw, the corrected lookup gives the same room. */
  lemma RoomForAgreesWhenNamed(project: FahProject, attributes: seq<PxKeyValue>)
    requires FindKV(attributes, "room").Some?
    ensures DeviceRoomAsWritten(project, attributes) == Ok(RoomFor(project.roomByUid, attributes))
  {
  }

  /**
   * What makes a device entry fail, in the order the loader meets it: its
   * nameId, its functionId, the first channel whose functionId fails, then
   * a null serial number when the device is added.
   */
  function DeviceFailure(xd: PxDevice): (r: Option<Exception>)
    ensures r.None? <==>
      ParseIdUnboxed(xd.nameId).Ok? && ParseIdUnboxed(xd.functionId).Ok?
      && (forall j :: 0 <= j < |xd.channels| ==> ChannelFunctionId(xd.channels[j]).Ok?)
      && xd.serialNumber.Some?
    ensures ParseIdUnboxed(xd.nameId).Throws? ==> r == Some(ParseIdUnboxed(xd.nameId).ex)
  {
    if ParseIdUnboxed(xd.nameId).Throws? then Some(ParseIdUnboxed(xd.nameId).ex)
    else if ParseIdUnboxed(xd.functionId).Throws? then Some(ParseIdUnboxed(xd.functionId).ex)
    else if FirstWhere(xd.channels, ChannelFails) < |xd.channels| then
      Some(ChannelFunctionId(xd.channels[FirstWhere(xd.channels, ChannelFails)]).ex)
    else if xd.serialNumber.None? then Some(NullPointerException)
    else None
  }

  /** The rooms of a project, as a frame for the device sets that placing a device changes. */
  function RoomsOf(project: FahProject): set<Room>
    reads project
  {
    project.roomByUid.Values
  }

  /**
   * What the loader builds for the device entry xd, apart from its channels:
   * its type and function looked up by the parsed ids, its displayName, and
   * the room its room attribute names; a failing id is the exception.
   */
  function EntryHeader(strings: map<int, FahString>, functions: map<int, FahFunction>,
                       rooms: map<string, Room>, xd: PxDevice): (r: Outcome<DeviceHeader>)
    ensures r.Throws? <==> ParseIdUnboxed(xd.nameId).Throws? || ParseIdUnboxed(xd.functionId).Throws?
    ensures r.Ok? ==> r.value.serialNumber == xd.serialNumber && r.value.deviceId == None
  {
    match ParseIdUnboxed(xd.nameId)
    case Throws(e) => Throws(e)
    case Ok(nameId) =>
      match ParseIdUnboxed(xd.functionId)
      case Throws(e) => Throws(e)
      case Ok(functionId) => Ok(HeaderFor(strings, functions, rooms, xd, nameId, functionId))
  }

  /** EntryHeader once both ids have parsed. */
  function HeaderFor(strings: map<int, FahString>, functions: map<int, FahFunction>,
                     rooms: map<string, Room>, xd: PxDevice, nameId: int, functionId: int): DeviceHeader
  {
    DeviceHeader(xd.serialNumber, if nameId in strings then Some(strings[nameId]) else None,
                 if functionId in functions then Some(functions[functionId]) else None,
                 FindKV(xd.attributes, "displayName"), RoomFor(rooms, xd.attributes), None, map[])
  }

  /** d is what the loader builds for the device entry xd, apart from its channels. */
  ghost predicate DeviceBuilt(strings: map<int, FahString>, functions: map<int, FahFunction>,
                              rooms: map<string, Room>, xd: PxDevice, d: Device)
    reads d`typ, d`fahFunction, d`name, d`room, d`deviceId, d`parameterValues
  {
    EntryHeader(strings, functions, rooms, xd) == Ok(d.Header())
  }

  /**
   * One device entry: build the device, set its type, function, name and
   * room, process its channels, add it to the project, then run the device
   * processors on it. The processors find no device id on a freshly loaded
   * device, so they add no sensors.
   */
  method ProcessDevice(project: FahProject, registry: Registry, xd: PxDevice) returns (r: Outcome<Device>, ghost made: seq<Channel>)
    modifies project`stringByNameId, project`functionByFunctionId, project`floorByUid
    modifies project`roomByUid, project`deviceBySerialNumber, project`channelByName, RoomsOf(project)`devices
    ensures ExceptionOf(r) == DeviceFailure(xd)
    ensures project.Ix().(channels := map[]) ==
      old(project.Ix()).(channels := map[], devices := if r.Ok? then old(project.deviceBySerialNumber)[xd.serialNumber.value := r.value]
                                                       else old(project.deviceBySerialNumber))
    ensures r.Ok? ==> fresh(r.value) && r.value.project == Some(project)
    ensures r.Ok? ==>
      DeviceBuilt(old(project.stringByNameId), old(project.functionByFunctionId), old(project.roomByUid), xd, r.value)
    ensures r.Ok? ==> ChannelsLoaded(old(project.functionByFunctionId), registry, project, r.value, xd.channels, made,
                                     map[], old(project.channelByName), r.value.channelsById, project.channelByName)
    ensures r.Ok? ==> forall rm :: rm in old(RoomsOf(project)) ==>
      rm.devices == old(rm.devices) + (if r.value.room == Some(rm) then {r.value} else {})
  {
    made := [];
    var built := BuildDevice(project, xd);
    r := built;
    if built.Ok? {
      var completed;
      completed, made := CompleteDevice(project, registry, built.value, xd);
      if completed.Throws? {
        r := Throws(completed.ex);
      }
    }
  }

  /**
   * A built device entry from its channels on: process the channels, add the
   * device to the project, run the device processors.
   */
  method CompleteDevice(project: FahProject, registry: Registry, d: Device, xd: PxDevice)
    returns (r: Outcome<()>, ghost made: seq<Channel>)
    requires d.channelsById == map[] && d.deviceId == None && d.serialNumber == xd.serialNumber
    modifies d`channelsById, d`project, project`stringByNameId, project`functionByFunctionId, project`floorByUid
    modifies project`roomByUid, project`deviceBySerialNumber, project`channelByName
    ensures ExceptionOf(r) ==
      if FirstWhere(xd.channels, ChannelFails) < |xd.channels|
      then Some(ChannelFunctionId(xd.channels[FirstWhere(xd.channels, ChannelFails)]).ex)
      else if xd.serialNumber.None? then Some(NullPointerException)
      else None
    ensures project.Ix().(channels := map[]) ==
      old(project.Ix()).(channels := map[], devices := if r.Ok? then old(project.deviceBySerialNumber)[xd.serialNumber.value := d]
                                                       else old(project.deviceBySerialNumber))
    ensures r.Ok? ==> d.project == Some(project)
    ensures r.Ok? ==> ChannelsLoaded(old(project.functionByFunctionId), registry, project, d, xd.channels, made,
                                     map[], old(project.channelByName), d.channelsById, project.channelByName)
  {
    var channels;
    channels, made := ProcessChannels(project, registry, d, xd.channels);
    if channels.Throws? {
      return Throws(channels.ex), made;
    }
    var added := AddLoadedDevice(project, registry, d);
    return added, made;
  }

  /** Adding a device whose channels are built to the project, then running the device processors on it. */
  method AddLoadedDevice(project: FahProject, registry: Registry, d: Device) returns (r: Outcome<()>)
    requires d.deviceId == None
    modifies d`channelsById, d`project, project`stringByNameId, project`functionByFunctionId, project`floorByUid
    modifies project`roomByUid, project`deviceBySerialNumber, project`channelByName
    ensures r.Throws? <==> d.serialNumber.None?
    ensures r.Throws? ==> r.ex == NullPointerException
    ensures d.project == Some(project) && d.channelsById == old(d.channelsById)
    ensures r.Ok? ==> project.Ix() == old(project.Ix()).(devices := old(project.deviceBySerialNumber)[d.serialNumber.value := d])
    ensures r.Throws? ==> project.Ix() == old(project.Ix())
  {
    r := project.AddPart(DevicePart(d));
    if r.Ok? {
      RunProcessorsOnLoaded(registry, d, project);
    }
  }

  /** A device entry up to its channels: the device with its type, function, name and room. */
  method BuildDevice(project: FahProject, xd: PxDevice) returns (r: Outcome<Device>)
    modifies RoomsOf(project)`devices
    ensures ExceptionOf(r) == ExceptionOf(EntryHeader(project.stringByNameId, project.functionByFunctionId, project.roomByUid, xd))
    ensures r.Ok? ==> fresh(r.value) && r.value.channelsById == map[] && r.value.project == None
    ensures r.Ok? ==> DeviceBuilt(project.stringByNameId, project.functionByFunctionId, project.roomByUid, xd, r.value)
    ensures r.Ok? ==> forall rm :: rm in RoomsOf(project) ==>
      rm.devices == old(rm.devices) + (if r.value.room == Some(rm) then {r.value} else {})
  {
    var nameId := ParseIdUnboxed(xd.nameId);
    if nameId.Throws? {
      return Throws(nameId.ex);
    }
    var functionId := ParseIdUnboxed(xd.functionId);
    if functionId.Throws? {
      return Throws(functionId.ex);
    }
    var d := NewDevice(project, xd, nameId.value, functionId.value);
    return Ok(d);
  }

  /**
   * The device of an entry whose ids have parsed: its type and function
   * looked up, its displayName, and placed in the room its room attribute
   * names.
   */
  method NewDevice(project: FahProject, xd: PxDevice, nameId: int, functionId: int) returns (d: Device)
    modifies RoomsOf(project)`devices
    ensures fresh(d) && d.channelsById == map[] && d.project == None
    ensures d.Header() == HeaderFor(project.stringByNameId, project.functionByFunctionId, project.roomByUid, xd, nameId, functionId)
    ensures forall rm :: rm in RoomsOf(project) ==> rm.devices == old(rm.devices) + (if d.room == Some(rm) then {d} else {})
  {
    d := new Device(xd.serialNumber);
    d.typ := project.GetStringByNameId(nameId);
    d.fahFunction := project.GetFunctionByFunctionId(functionId);
    d.name := FindKV(xd.attributes, "displayName");
    d.SetRoom(RoomFor(project.roomByUid, xd.attributes));
  }

  /**
   * The device processors on a freshly loaded device: it has no device id,
   * so the sensor processor finds no sensors to add and nothing changes.
   */
  method RunProcessorsOnLoaded(registry: Registry, d: Device, project: FahProject)
    requires d.project == Some(project) && d.deviceId == None
    modifies d`channelsById, project`stringByNameId, project`functionByFunctionId, project`floorByUid
    modifies project`roomByUid, project`deviceBySerialNumber, project`channelByName
    ensures d.channelsById == old(d.channelsById) && project.Ix() == old(project.Ix())
  {
    SensorTable(d.deviceId, d.ParameterValue("pm0000"));
    var processed := RunProcessors(registry.processors, d);
    KeptOutsideNothing(d.channelsById, old(d.channelsById));
    KeptOutsideNothing(project.channelByName, old(project.channelByName));
  }

  /** A change confined to no keys is no change. */
  lemma KeptOutsideNothing<V>(now: map<string, V>, before: map<string, V>)
    requires KeptOutside(now, before, {})
    ensures now == before
  {
  }
}
