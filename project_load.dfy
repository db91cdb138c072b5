// FahXmlProcessor.processProjectXml: the devices section, device entry by
// device entry, and the whole project document, section by section.

module ProjectLoad {
  import opened Wrappers
  import opened JavaLang
  import opened Project
  import opened ChannelFactories
  import opened XmlProcessor

  // ---------------------------------------------------------------------
  // The devices section

  /** A device entry whose processing throws, which ends the devices section. */
  predicate DeviceFails(xd: PxDevice) {
    DeviceFailure(xd).Some?
  }

  /** The exception the devices section throws: that of its first failing entry, if any. */
  function DevicesFailure(xds: seq<PxDevice>): (r: Option<Exception>)
    ensures r.None? <==> forall j :: 0 <= j < |xds| ==> DeviceFailure(xds[j]).None?
  {
    var n := FirstWhere(xds, DeviceFails);
    if n < |xds| then DeviceFailure(xds[n]) else None
  }

  /** The device index after each loaded device is added under its entry's serial number, in order. */
  function DeviceIndex(m: map<string, Device>, xds: seq<PxDevice>, made: seq<Device>): map<string, Device>
    requires |xds| == |made| && forall j :: 0 <= j < |xds| ==> xds[j].serialNumber.Some?
    decreases |xds|
  {
    if xds == [] then m
    else
      var n := |xds| - 1;
      DeviceIndex(m, xds[..n], made[..n])[xds[n].serialNumber.value := made[n]]
  }

  /** channels holds one channel per channel entry of each device entry. */
  predicate ChannelCounts(xds: seq<PxDevice>, channels: seq<seq<Channel>>)
    decreases |xds|
  {
    |xds| == |channels|
    && (xds == []
        || (ChannelCounts(xds[..|xds| - 1], channels[..|channels| - 1])
            && |channels[|channels| - 1]| == |xds[|xds| - 1].channels|))
  }

  /** The project's channel name index after the channels of each device are added, device by device. */
  function DevicesNameIndex(m: map<string, Channel>, xds: seq<PxDevice>, channels: seq<seq<Channel>>): map<string, Channel>
    requires ChannelCounts(xds, channels)
    decreases |xds|
  {
    if xds == [] then m
    else
      var n := |xds| - 1;
      ChannelNameIndex(DevicesNameIndex(m, xds[..n], channels[..n]), xds[n].channels, channels[n])
  }

  /**
   * d, with channels cs, is what the loader builds for the device entry xd:
   * its header from the entry, belonging to project, a channel built from
   * each channel entry, and its channel map keyed by the entries' ids.
   */
  ghost predicate DeviceLoaded(strings: map<int, FahString>, functions: map<int, FahFunction>, rooms: map<string, Room>,
                               registry: Registry, project: FahProject, xd: PxDevice, d: Device, cs: seq<Channel>)
    reads d`typ, d`fahFunction, d`name, d`room, d`deviceId, d`parameterValues, d`channelsById, d`project
    reads (set c | c in cs)`fahFunction, (set c | c in cs)`name, (set c | c in cs)`dataPointValues
    reads (set c | c in cs)`inputDataPoints, (set c | c in cs)`project
  {
    DeviceBuilt(strings, functions, rooms, xd, d) && d.project == Some(project)
    && AllChannelsBuilt(functions, registry, project, d, xd.channels, cs)
    && d.channelsById == ChannelIdIndex(map[], xd.channels, cs)
  }

  /** Each device of made, with its channels, is what the loader builds for the entry at its position. */
  ghost predicate AllDevicesLoaded(strings: map<int, FahString>, functions: map<int, FahFunction>,
                                   rooms: map<string, Room>, registry: Registry, project: FahProject,
                                   xds: seq<PxDevice>, made: seq<Device>, channels: seq<seq<Channel>>)
    reads (set d | d in made)`typ, (set d | d in made)`fahFunction, (set d | d in made)`name
    reads (set d | d in made)`room, (set d | d in made)`deviceId, (set d | d in made)`parameterValues
    reads (set d | d in made)`channelsById, (set d | d in made)`project
    reads (set cs, c | cs in channels && c in cs :: c)`fahFunction, (set cs, c | cs in channels && c in cs :: c)`name
    reads (set cs, c | cs in channels && c in cs :: c)`dataPointValues
    reads (set cs, c | cs in channels && c in cs :: c)`inputDataPoints, (set cs, c | cs in channels && c in cs :: c)`project
    decreases |xds|
  {
    |xds| == |made| == |channels|
    && (xds == []
        || (AllDevicesLoaded(strings, functions, rooms, registry, project,
                             xds[..|xds| - 1], made[..|made| - 1], channels[..|channels| - 1])
            && DeviceLoaded(strings, functions, rooms, registry, project,
                            xds[|xds| - 1], made[|made| - 1], channels[|channels| - 1])))
  }

  /**
   * The outcome of the devices section so far: a device built from each
   * entry, and the device index and the channel name index folded from
   * before as DeviceIndex and DevicesNameIndex say.
   */
  ghost predicate DevicesLoaded(strings: map<int, FahString>, functions: map<int, FahFunction>,
                                rooms: map<string, Room>, registry: Registry, project: FahProject,
                                xds: seq<PxDevice>, made: seq<Device>, channels: seq<seq<Channel>>,
                                devicesBefore: map<string, Device>, namesBefore: map<string, Channel>,
                                devices: map<string, Device>, names: map<string, Channel>)
    reads (set d | d in made)`typ, (set d | d in made)`fahFunction, (set d | d in made)`name
    reads (set d | d in made)`room, (set d | d in made)`deviceId, (set d | d in made)`parameterValues
    reads (set d | d in made)`channelsById, (set d | d in made)`project
    reads (set cs, c | cs in channels && c in cs :: c)`fahFunction, (set cs, c | cs in channels && c in cs :: c)`name
    reads (set cs, c | cs in channels && c in cs :: c)`dataPointValues
    reads (set cs, c | cs in channels && c in cs :: c)`inputDataPoints, (set cs, c | cs in channels && c in cs :: c)`project
  {
    |made| == |xds| && ChannelCounts(xds, channels) && (forall j :: 0 <= j < |xds| ==> xds[j].serialNumber.Some?)
    && AllDevicesLoaded(strings, functions, rooms, registry, project, xds, made, channels)
    && (devices, names) == (DeviceIndex(devicesBefore, xds, made), DevicesNameIndex(namesBefore, xds, channels))
  }

  /** The devices of made whose entries name room rm, looked up in rooms. */
  function PlacedIn(rooms: map<string, Room>, xds: seq<PxDevice>, made: seq<Device>, rm: Room): set<Device>
    requires |xds| == |made|
    decreases |xds|
  {
    if xds == [] then {}
    else
      var n := |xds| - 1;
      PlacedIn(rooms, xds[..n], made[..n], rm) + (if RoomFor(rooms, xds[n].attributes) == Some(rm) then {made[n]} else {})
  }

  /** The device set of each room of rooms. */
  function DevicesOf(rooms: map<string, Room>): (m: map<Room, set<Device>>)
    reads (set rm | rm in rooms.Values)`devices
    ensures m.Keys == rooms.Values && forall rm :: rm in m ==> m[rm] == rm.devices
  {
    map rm | rm in rooms.Values :: rm.devices
  }

  /** The device sets after d is placed in room target: that room gains d, the others are kept. */
  function Join(sets: map<Room, set<Device>>, d: Device, target: Option<Room>): map<Room, set<Device>> {
    map rm | rm in sets :: if target == Some(rm) then sets[rm] + {d} else sets[rm]
  }

  /** The device sets after each device of made is placed in the room its entry names, in order. */
  function Placed(rooms: map<string, Room>, sets: map<Room, set<Device>>, xds: seq<PxDevice>, made: seq<Device>)
    : map<Room, set<Device>>
    requires |xds| == |made|
    decreases |xds|
  {
    if xds == [] then sets
    else
      var n := |xds| - 1;
      Join(Placed(rooms, sets, xds[..n], made[..n]), made[n], RoomFor(rooms, xds[n].attributes))
  }

  /** AllDevicesLoaded, entry by entry. */
  lemma {:induction false} AllDevicesLoadedEach(strings: map<int, FahString>, functions: map<int, FahFunction>,
                                                rooms: map<string, Room>, registry: Registry, project: FahProject,
                                                xds: seq<PxDevice>, made: seq<Device>, channels: seq<seq<Channel>>,
                                                j: nat)
    requires j < |xds| && AllDevicesLoaded(strings, functions, rooms, registry, project, xds, made, channels)
    ensures DeviceLoaded(strings, functions, rooms, registry, project, xds[j], made[j], channels[j])
    decreases |xds|
  {
    var n := |xds| - 1;
    if j < n {
      AllDevicesLoadedEach(strings, functions, rooms, registry, project, xds[..n], made[..n], channels[..n], j);
      assert xds[..n][j] == xds[j] && made[..n][j] == made[j] && channels[..n][j] == channels[j];
      assert DeviceLoaded(strings, functions, rooms, registry, project, xds[..n][j], made[..n][j], channels[..n][j]);
    } else {
      assert DeviceLoaded(strings, functions, rooms, registry, project, xds[n], made[n], channels[n]);
    }
  }

  /** A device is indexed under its entry's serial number when no later entry has the same one. */
  lemma {:induction false} DeviceIndexLastWins(m: map<string, Device>, xds: seq<PxDevice>, made: seq<Device>, k: nat)
    requires |xds| == |made| && forall j :: 0 <= j < |xds| ==> xds[j].serialNumber.Some?
    requires k < |xds| && forall j :: k < j < |xds| ==> xds[j].serialNumber != xds[k].serialNumber
    ensures xds[k].serialNumber.value in DeviceIndex(m, xds, made)
    ensures DeviceIndex(m, xds, made)[xds[k].serialNumber.value] == made[k]
    decreases |xds|
  {
    var n := |xds| - 1;
    if k < n {
      DeviceIndexLastWins(m, xds[..n], made[..n], k);
    }
  }

  /** The folds of the devices section, extended by one loaded device. */
  lemma DevicesStep(strings: map<int, FahString>, functions: map<int, FahFunction>, rooms: map<string, Room>,
                    registry: Registry, project: FahProject, xds: seq<PxDevice>, made: seq<Device>,
                    channels: seq<seq<Channel>>, d: Device, cs: seq<Channel>,
                    devicesBefore: map<string, Device>, namesBefore: map<string, Channel>,
                    devices: map<string, Device>, names: map<string, Channel>, names': map<string, Channel>)
    requires |made| < |xds| && xds[|made|].serialNumber.Some?
    requires DevicesLoaded(strings, functions, rooms, registry, project, xds[..|made|], made, channels,
                           devicesBefore, namesBefore, devices, names)
    requires DeviceBuilt(strings, functions, rooms, xds[|made|], d) && d.project == Some(project)
    requires ChannelsLoaded(functions, registry, project, d, xds[|made|].channels, cs, map[], names, d.channelsById, names')
    ensures DevicesLoaded(strings, functions, rooms, registry, project, xds[..|made| + 1], made + [d], channels + [cs],
                          devicesBefore, namesBefore, devices[xds[|made|].serialNumber.value := d], names')
  {
    var k := |made|;
    assert xds[..k + 1][..k] == xds[..k];
    assert (made + [d])[..k] == made;
    assert (channels + [cs])[..k] == channels;
    SerializedStep(xds[..k], xds[..k + 1]);
    ChannelCountsStep(xds[..k + 1], channels, cs);
  }

  /** The serial numbers of one more entry are all present. */
  lemma SerializedStep(xs: seq<PxDevice>, ys: seq<PxDevice>)
    requires |ys| > 0 && xs == ys[..|ys| - 1] && ys[|ys| - 1].serialNumber.Some?
    requires forall j :: 0 <= j < |xs| ==> xs[j].serialNumber.Some?
    ensures forall j :: 0 <= j < |ys| ==> ys[j].serialNumber.Some?
  {
    forall j | 0 <= j < |ys|
      ensures ys[j].serialNumber.Some?
    {
      if j < |xs| {
        assert xs[j] == ys[j];
      }
    }
  }

  /** ChannelCounts, extended by one device entry. */
  lemma ChannelCountsStep(xds: seq<PxDevice>, channels: seq<seq<Channel>>, cs: seq<Channel>)
    requires |xds| == |channels| + 1 && |cs| == |xds[|xds| - 1].channels|
    requires ChannelCounts(xds[..|xds| - 1], channels)
    ensures ChannelCounts(xds, channels + [cs])
  {
    assert (channels + [cs])[..|channels|] == channels;
  }

  /** Placed, extended by one device. */
  lemma PlacedStep(rooms: map<string, Room>, sets: map<Room, set<Device>>, xds: seq<PxDevice>, made: seq<Device>,
                   d: Device)
    requires |made| < |xds|
    ensures Placed(rooms, sets, xds[..|made| + 1], made + [d])
         == Join(Placed(rooms, sets, xds[..|made|], made), d, RoomFor(rooms, xds[|made|].attributes))
  {
    var k := |made|;
    assert xds[..k + 1][..k] == xds[..k];
    assert (made + [d])[..k] == made;
  }

  /** Each room's device set after d joined room target, stated room by room, as a Join. */
  lemma DevicesOfJoin(rooms: map<string, Room>, prior: map<Room, set<Device>>, d: Device, target: Option<Room>)
    requires prior.Keys == rooms.Values
    requires forall rm :: rm in rooms.Values ==> rm.devices == prior[rm] + (if target == Some(rm) then {d} else {})
    ensures DevicesOf(rooms) == Join(prior, d, target)
  {
    assert forall rm :: rm in DevicesOf(rooms) ==> DevicesOf(rooms)[rm] == Join(prior, d, target)[rm];
  }

  /** Placed, room by room: a room holds what it held and the devices whose entries name it. */
  lemma {:induction false} PlacedAdds(rooms: map<string, Room>, sets: map<Room, set<Device>>, xds: seq<PxDevice>,
                                      made: seq<Device>, rm: Room)
    requires |xds| == |made| && rm in sets
    ensures rm in Placed(rooms, sets, xds, made)
    ensures Placed(rooms, sets, xds, made)[rm] == sets[rm] + PlacedIn(rooms, xds, made, rm)
    decreases |xds|
  {
    if xds != [] {
      var n := |xds| - 1;
      PlacedAdds(rooms, sets, xds[..n], made[..n], rm);
    }
  }

  /** A device built from an entry is in the room its entry names. */
  lemma DeviceBuiltRoom(strings: map<int, FahString>, functions: map<int, FahFunction>, rooms: map<string, Room>,
                        xd: PxDevice, d: Device)
    requires DeviceBuilt(strings, functions, rooms, xd, d)
    ensures d.room == RoomFor(rooms, xd.attributes)
  {
  }

  /** A device is placed in a room exactly when its entry's room attribute names that room. */
  lemma {:induction false} PlacedInNamed(rooms: map<string, Room>, xds: seq<PxDevice>, made: seq<Device>, rm: Room,
                                         j: nat)
    requires |xds| == |made| && j < |xds|
    requires forall i :: 0 <= i < |made| && i != j ==> made[i] != made[j]
    ensures made[j] in PlacedIn(rooms, xds, made, rm) <==> RoomFor(rooms, xds[j].attributes) == Some(rm)
    decreases |xds|
  {
    var n := |xds| - 1;
    if j < n {
      assert forall i :: 0 <= i < n && i != j ==> made[..n][i] != made[..n][j];
      PlacedInNamed(rooms, xds[..n], made[..n], rm, j);
      assert made[..n][j] == made[j] && xds[..n][j] == xds[j];
    } else {
      PlacedInOthers(rooms, xds[..n], made[..n], rm, made[j]);
    }
  }

  /** A device that is none of made is placed nowhere. */
  lemma {:induction false} PlacedInOthers(rooms: map<string, Room>, xds: seq<PxDevice>, made: seq<Device>, rm: Room,
                                          d: Device)
    requires |xds| == |made| && forall i :: 0 <= i < |made| ==> made[i] != d
    ensures d !in PlacedIn(rooms, xds, made, rm)
    decreases |xds|
  {
    if xds != [] {
      var n := |xds| - 1;
      assert forall i :: 0 <= i < n ==> made[..n][i] == made[i];
      PlacedInOthers(rooms, xds[..n], made[..n], rm, d);
    }
  }

  /**
   * The devices section: each device entry in order, with its channels,
   * until one throws; each loaded device joins the room it names.
   */
  method ProcessDevices(project: FahProject, registry: Registry, xds: seq<PxDevice>)
    returns (r: Outcome<()>, ghost made: seq<Device>, ghost channels: seq<seq<Channel>>)
    modifies project`stringByNameId, project`functionByFunctionId, project`floorByUid
    modifies project`roomByUid, project`deviceBySerialNumber, project`channelByName, RoomsOf(project)`devices
    ensures ExceptionOf(r) == DevicesFailure(xds)
    ensures project.Ix().(devices := map[], channels := map[]) == old(project.Ix()).(devices := map[], channels := map[])
    ensures r.Ok? ==> DevicesLoaded(project.stringByNameId, project.functionByFunctionId, project.roomByUid,
                                    registry, project, xds, made, channels, old(project.deviceBySerialNumber),
                                    old(project.channelByName), project.deviceBySerialNumber, project.channelByName)
    ensures r.Ok? ==> DevicesOf(project.roomByUid) == Placed(project.roomByUid, old(DevicesOf(project.roomByUid)), xds, made)
  {
    ghost var before := DevicesOf(project.roomByUid);
    made, channels := [], [];
    var k := 0;
    while k < |xds|
      invariant 0 <= k <= FirstWhere(xds, DeviceFails) && |made| == k
      invariant project.Ix().(devices := map[], channels := map[]) == old(project.Ix()).(devices := map[], channels := map[])
      invariant DevicesLoaded(old(project.stringByNameId), old(project.functionByFunctionId), old(project.roomByUid),
                              registry, project, xds[..k], made, channels, old(project.deviceBySerialNumber),
                              old(project.channelByName), project.deviceBySerialNumber, project.channelByName)
      invariant DevicesOf(project.roomByUid) == Placed(project.roomByUid, before, xds[..k], made)
    {
      var step;
      step, made, channels := ProcessDeviceAt(project, registry, xds, k, made, channels, before,
                                              old(project.deviceBySerialNumber), old(project.channelByName));
      FirstWhereAt(xds, DeviceFails, k);
      if step.Throws? {
        return step, made, channels;
      }
      k := k + 1;
    }
    assert xds[..k] == xds;
    return Ok(()), made, channels;
  }

  /**
   * The devices loaded so far stay loaded across a step that changes none of
   * them or their channels. The objects the predicate mentions travel in one
   * tuple, loaded = (rooms, registry, project, made, channels, devicesBefore,
   * namesBefore, devices, names).
   */
  twostate lemma DevicesLoadedKept(new strings: map<int, FahString>, new functions: map<int, FahFunction>,
                                   new xds: seq<PxDevice>,
                                   loaded: (map<string, Room>, Registry, FahProject, seq<Device>, seq<seq<Channel>>,
                                            map<string, Device>, map<string, Channel>, map<string, Device>,
                                            map<string, Channel>))
    requires old(DevicesLoaded(strings, functions, loaded.0, loaded.1, loaded.2, xds, loaded.3, loaded.4,
                               loaded.5, loaded.6, loaded.7, loaded.8))
    requires forall d :: d in loaded.3 ==> unchanged(d)
    requires forall cs, c :: cs in loaded.4 && c in cs ==> unchanged(c)
    ensures DevicesLoaded(strings, functions, loaded.0, loaded.1, loaded.2, xds, loaded.3, loaded.4,
                          loaded.5, loaded.6, loaded.7, loaded.8)
  {
  }

  /**
   * ProcessDevice on the entry after those already loaded: the folds extended
   * by the device it builds, which joins the room its entry names.
   */
  method ProcessDeviceNext(project: FahProject, registry: Registry, xds: seq<PxDevice>, k: nat,
                           ghost made: seq<Device>, ghost channels: seq<seq<Channel>>,
                           ghost devicesBefore: map<string, Device>, ghost namesBefore: map<string, Channel>)
    returns (r: Outcome<Device>, ghost cs: seq<Channel>)
    requires k < |xds| && |made| == k
    requires DevicesLoaded(project.stringByNameId, project.functionByFunctionId, project.roomByUid, registry, project,
                           xds[..k], made, channels, devicesBefore, namesBefore,
                           project.deviceBySerialNumber, project.channelByName)
    modifies project`stringByNameId, project`functionByFunctionId, project`floorByUid
    modifies project`roomByUid, project`deviceBySerialNumber, project`channelByName, RoomsOf(project)`devices
    ensures ExceptionOf(r) == DeviceFailure(xds[k])
    ensures project.Ix().(devices := map[], channels := map[]) == old(project.Ix()).(devices := map[], channels := map[])
    ensures r.Ok? ==> DevicesLoaded(old(project.stringByNameId), old(project.functionByFunctionId), old(project.roomByUid),
                                    registry, project, xds[..k + 1], made + [r.value], channels + [cs],
                                    devicesBefore, namesBefore, project.deviceBySerialNumber, project.channelByName)
    ensures r.Ok? ==> DevicesOf(project.roomByUid) ==
                      Join(old(DevicesOf(project.roomByUid)), r.value, RoomFor(old(project.roomByUid), xds[k].attributes))
  {
    ghost var prior := DevicesOf(project.roomByUid);
    r, cs := ProcessDevice(project, registry, xds[k]);
    DevicesLoadedKept(old(project.stringByNameId), old(project.functionByFunctionId), xds[..k],
                      (old(project.roomByUid), registry, project, made, channels, devicesBefore, namesBefore,
                       old(project.deviceBySerialNumber), old(project.channelByName)));
    if r.Ok? {
      DevicesStep(old(project.stringByNameId), old(project.functionByFunctionId), old(project.roomByUid),
                  registry, project, xds, made, channels, r.value, cs, devicesBefore, namesBefore,
                  old(project.deviceBySerialNumber), old(project.channelByName), project.channelByName);
      DeviceBuiltRoom(old(project.stringByNameId), old(project.functionByFunctionId), project.roomByUid, xds[k], r.value);
      DevicesOfJoin(project.roomByUid, prior, r.value, r.value.room);
    }
  }

  /** One iteration of ProcessDevices: the device entry after those already loaded, and the folds extended by it. */
  method ProcessDeviceAt(project: FahProject, registry: Registry, xds: seq<PxDevice>, k: nat,
                         ghost made: seq<Device>, ghost channels: seq<seq<Channel>>, ghost before: map<Room, set<Device>>,
                         ghost devicesBefore: map<string, Device>, ghost namesBefore: map<string, Channel>)
    returns (r: Outcome<()>, ghost made': seq<Device>, ghost channels': seq<seq<Channel>>)
    requires k < |xds| && k <= FirstWhere(xds, DeviceFails) && |made| == k
    requires DevicesLoaded(project.stringByNameId, project.functionByFunctionId, project.roomByUid, registry, project,
                           xds[..k], made, channels, devicesBefore, namesBefore,
                           project.deviceBySerialNumber, project.channelByName)
    requires DevicesOf(project.roomByUid) == Placed(project.roomByUid, before, xds[..k], made)
    modifies project`stringByNameId, project`functionByFunctionId, project`floorByUid
    modifies project`roomByUid, project`deviceBySerialNumber, project`channelByName, RoomsOf(project)`devices
    ensures ExceptionOf(r) == DeviceFailure(xds[k])
    ensures project.Ix().(devices := map[], channels := map[]) == old(project.Ix()).(devices := map[], channels := map[])
    ensures r.Ok? ==> DevicesLoaded(old(project.stringByNameId), old(project.functionByFunctionId), old(project.roomByUid),
                                    registry, project, xds[..k + 1], made', channels', devicesBefore, namesBefore,
                                    project.deviceBySerialNumber, project.channelByName)
    ensures r.Ok? ==> |made'| == k + 1 && DevicesOf(project.roomByUid) == Placed(project.roomByUid, before, xds[..k + 1], made')
  {
    made', channels' := made, channels;
    var d, cs := ProcessDeviceNext(project, registry, xds, k, made, channels, devicesBefore, namesBefore);
    r := Ok(());
    if d.Throws? {
      r := Throws(d.ex);
    } else {
      PlacedStep(project.roomByUid, before, xds, made, d.value);
      made', channels' := made + [d.value], channels + [cs];
    }
  }

  /** The channel map of a loaded device keys each channel by its own id, and each channel is the device's. */
  lemma {:induction false} ChannelIdIndexKeyed(functions: map<int, FahFunction>, registry: Registry, project: FahProject,
                                               d: Device, xcs: seq<PxChannel>, made: seq<Channel>)
    requires AllChannelsBuilt(functions, registry, project, d, xcs, made)
    ensures forall id :: id in ChannelIdIndex(map[], xcs, made) ==>
      ChannelIdIndex(map[], xcs, made)[id].id == id && ChannelIdIndex(map[], xcs, made)[id].device == d
    decreases |xcs|
  {
    if xcs != [] {
      var n := |xcs| - 1;
      ChannelIdIndexKeyed(functions, registry, project, d, xcs[..n], made[..n]);
      assert ChannelBuilt(functions, registry, project, d, xcs[n], made[n]);
      assert made[n].id == xcs[n].i && made[n].device == d;
      var before := ChannelIdIndex(map[], xcs[..n], made[..n]);
      assert ChannelIdIndex(map[], xcs, made) == before[xcs[n].i := made[n]];
    }
  }

  /**
   * Loading devices keeps the device index consistent: each device sits
   * under its own serial number and keys its channels by their ids.
   */
  lemma {:induction false} DeviceIndexConsistent(strings: map<int, FahString>, functions: map<int, FahFunction>,
                                                 rooms: map<string, Room>, registry: Registry, project: FahProject,
                                                 xds: seq<PxDevice>, made: seq<Device>, channels: seq<seq<Channel>>,
                                                 m: map<string, Device>)
    requires AllDevicesLoaded(strings, functions, rooms, registry, project, xds, made, channels)
    requires forall j :: 0 <= j < |xds| ==> xds[j].serialNumber.Some?
    requires forall s :: s in m ==> m[s].serialNumber == Some(s) && ChannelsKeyedById(m[s])
    ensures forall s :: s in DeviceIndex(m, xds, made) ==>
      DeviceIndex(m, xds, made)[s].serialNumber == Some(s) && ChannelsKeyedById(DeviceIndex(m, xds, made)[s])
    decreases |xds|
  {
    if xds != [] {
      var n := |xds| - 1;
      assert forall j :: 0 <= j < n ==> xds[..n][j].serialNumber.Some?;
      DeviceIndexConsistent(strings, functions, rooms, registry, project, xds[..n], made[..n], channels[..n], m);
      assert DeviceLoaded(strings, functions, rooms, registry, project, xds[n], made[n], channels[n]);
      ChannelIdIndexKeyed(functions, registry, project, made[n], xds[n].channels, channels[n]);
      assert made[n].serialNumber == xds[n].serialNumber;
      assert ChannelsKeyedById(made[n]);
    }
  }
}
