// FahProjectParser (project package): builds a FahProject from the project
// XML with a tree of XppWalkers. Ids are hexadecimal, a floor's level is
// decimal; floors are added before their rooms and channels before their
// device; a nameless channel takes its device's name; parser errors are
// rethrown as RuntimeException.
//
// The walker's callbacks are interpreted here in the order the walk makes
// them. A walk does not depend on what its callbacks do (the handler tables
// are fixed before parsing starts), so walking first and then running the
// callbacks in order, stopping at the first exception, is the interleaving
// the program performs.

module ProjectParser {
  import opened Wrappers
  import opened JavaLang
  import opened Project
  import opened Xpp

  // ---------------------------------------------------------------------
  // The handler tree

  /** The lambdas of the parser, one per registered tag. */
  datatype Action =
    | ValueTag | VarTag | StringTag | FunctionTag
    | FloorTag | RoomTag
    | DeviceTag | DeviceAttributeTag | ChannelTag | ChannelAttributeTag | DataPointTag

  const RoomTags: map<string, Handler<Action>> := map["room" := Lambda(RoomTag, Attributes)]

  const DataPointTags: map<string, Handler<Action>> := map["dataPoint" := Lambda(DataPointTag, Attributes)]

  const ChannelTags: map<string, Handler<Action>> := map[
    "attribute" := Lambda(ChannelAttributeTag, ElementText),
    "inputs" := Walker(DataPointTags)]

  const ChannelsTags: map<string, Handler<Action>> := map["channel" := Lambda(ChannelTag, Content(ChannelTags))]

  const DeviceTags: map<string, Handler<Action>> := map[
    "attribute" := Lambda(DeviceAttributeTag, ElementText),
    "channels" := Walker(ChannelsTags)]

  const SysapTags: map<string, Handler<Action>> := map["value" := Lambda(ValueTag, ElementText)]
  const ConfigTags: map<string, Handler<Action>> := map["var" := Lambda(VarTag, ElementText)]
  const StringsTags: map<string, Handler<Action>> := map["string" := Lambda(StringTag, ElementText)]
  const FunctionsTags: map<string, Handler<Action>> := map["function" := Lambda(FunctionTag, Attributes)]
  const DefinitionsTags: map<string, Handler<Action>> := map["functions" := Walker(FunctionsTags)]
  const FloorplanTags: map<string, Handler<Action>> := map["floor" := Lambda(FloorTag, Content(RoomTags))]
  const DevicesTags: map<string, Handler<Action>> := map["device" := Lambda(DeviceTag, Content(DeviceTags))]

  const ProjectContentTags: map<string, Handler<Action>> := map[
    "sysap" := Walker(SysapTags),
    "config" := Walker(ConfigTags),
    "strings" := Walker(StringsTags),
    "definitions" := Walker(DefinitionsTags),
    "floorplan" := Walker(FloorplanTags),
    "devices" := Walker(DevicesTags)]

  /** The handler tree of parse: the project element's walker and what it registers. */
  const ProjectTags: map<string, Handler<Action>> := map["project" := Walker(ProjectContentTags)]

  /** A walker with one tag registered. */
  method NewWalker(tagName: string, handler: Handler<Action>) returns (walker: XppWalker<Action>)
    ensures fresh(walker) && walker.tags == map[tagName := handler]
  {
    walker := new XppWalker<Action>();
    walker := walker.PutTag(tagName, handler);
  }

  /** The walker of the project element, put together with putTag as the program does. */
  method NewProjectContentWalker() returns (walker: XppWalker<Action>)
    ensures fresh(walker) && walker.tags == ProjectContentTags
  {
    var value := NewWalker("value", Lambda(ValueTag, ElementText));
    var vars := NewWalker("var", Lambda(VarTag, ElementText));
    var strings := NewWalker("string", Lambda(StringTag, ElementText));
    var functions := NewWalker("function", Lambda(FunctionTag, Attributes));
    var definitions := NewWalker("functions", functions.AsHandler());
    var floors := NewWalker("floor", Lambda(FloorTag, Content(RoomTags)));
    var devices := NewWalker("device", Lambda(DeviceTag, Content(DeviceTags)));
    walker := new XppWalker<Action>();
    walker := walker.PutTag("sysap", value.AsHandler());
    walker := walker.PutTag("config", vars.AsHandler());
    walker := walker.PutTag("strings", strings.AsHandler());
    walker := walker.PutTag("definitions", definitions.AsHandler());
    walker := walker.PutTag("floorplan", floors.AsHandler());
    walker := walker.PutTag("devices", devices.AsHandler());
  }

  /** The walker of parse. */
  method NewProjectWalker() returns (walker: XppWalker<Action>)
    ensures fresh(walker) && walker.tags == ProjectTags
  {
    var project := NewProjectContentWalker();
    walker := NewWalker("project", project.AsHandler());
  }

  // ---------------------------------------------------------------------
  // Which callbacks a walk can make where

  /** The lambda whose content walker a callback comes from, if any. */
  datatype Scope = TopScope | FloorScope | DeviceScope | ChannelScope

  function ScopeOf(a: Action): Scope {
    match a
    case RoomTag => FloorScope
    case DeviceAttributeTag | ChannelTag => DeviceScope
    case ChannelAttributeTag | DataPointTag => ChannelScope
    case _ => TopScope
  }

  /** The scope of a lambda's own content walker. */
  function ContentScope(a: Action): Option<Scope> {
    match a
    case FloorTag => Some(FloorScope)
    case DeviceTag => Some(DeviceScope)
    case ChannelTag => Some(ChannelScope)
    case _ => None
  }

  predicate ReadsText(a: Action) {
    a in {ValueTag, VarTag, StringTag, DeviceAttributeTag, ChannelAttributeTag}
  }

  /** A handler registered in a walker of the given scope. */
  predicate HandlerIn(h: Handler<Action>, scope: Scope)
    decreases h
  {
    match h
    case Walker(tags) => forall k :: k in tags ==> HandlerIn(tags[k], scope)
    case Lambda(a, reading) =>
      ScopeOf(a) == scope &&
      match reading
      case Attributes => ContentScope(a).None? && !ReadsText(a)
      case ElementText => ReadsText(a)
      case Content(tags) => ContentScope(a).Some? && forall k :: k in tags ==> HandlerIn(tags[k], ContentScope(a).value)
  }

  /** A callback made in a walker of the given scope, with the body its lambda reads. */
  predicate CallIn(c: Call<Action>, scope: Scope)
    decreases c
  {
    ScopeOf(c.action) == scope &&
    match c.body
    case NoBody => ContentScope(c.action).None? && !ReadsText(c.action)
    case TextBody(_) => ReadsText(c.action)
    case ContentBody(calls, _) =>
      ContentScope(c.action).Some? && forall i :: 0 <= i < |calls| ==> CallIn(calls[i], ContentScope(c.action).value)
  }

  predicate CallsIn(calls: seq<Call<Action>>, scope: Scope) {
    forall i :: 0 <= i < |calls| ==> CallIn(calls[i], scope)
  }

  /** All handlers of a table sit in one scope. */
  predicate TagsIn(tags: map<string, Handler<Action>>, scope: Scope) {
    forall k :: k in tags ==> HandlerIn(tags[k], scope)
  }

  /** Registering a handler of the table's scope keeps the table in that scope. */
  lemma PutTagIn(tags: map<string, Handler<Action>>, k: string, h: Handler<Action>, scope: Scope)
    requires TagsIn(tags, scope) && HandlerIn(h, scope)
    ensures TagsIn(tags[k := h], scope)
  {
  }

  /** A walker over a table of one scope sits in that scope. */
  lemma WalkerIn(tags: map<string, Handler<Action>>, scope: Scope)
    requires TagsIn(tags, scope)
    ensures HandlerIn(Walker(tags), scope)
  {
  }

  /** A walker with one handler of a scope sits in that scope. */
  lemma OneTagIn(k: string, h: Handler<Action>, scope: Scope)
    requires HandlerIn(h, scope)
    ensures TagsIn(map[k := h], scope) && HandlerIn(Walker(map[k := h]), scope)
  {
    PutTagIn(map[], k, h, scope);
  }

  /** The handlers of a device's content walker sit in the device scope. */
  lemma DeviceTagsIn()
    ensures TagsIn(DeviceTags, DeviceScope)
  {
    OneTagIn("dataPoint", Lambda(DataPointTag, Attributes), ChannelScope);
    PutTagIn(map[], "attribute", Lambda(ChannelAttributeTag, ElementText), ChannelScope);
    PutTagIn(map["attribute" := Lambda(ChannelAttributeTag, ElementText)], "inputs", Walker(DataPointTags), ChannelScope);
    PutTagIn(map[], "channel", Lambda(ChannelTag, Content(ChannelTags)), DeviceScope);
    PutTagIn(map[], "attribute", Lambda(DeviceAttributeTag, ElementText), DeviceScope);
    WalkerIn(ChannelsTags, DeviceScope);
    PutTagIn(map["attribute" := Lambda(DeviceAttributeTag, ElementText)], "channels", Walker(ChannelsTags), DeviceScope);
  }

  /** The walkers of the project element that only read attributes and text sit in the top scope. */
  lemma ProjectLeavesIn()
    ensures HandlerIn(Walker(SysapTags), TopScope) && HandlerIn(Walker(ConfigTags), TopScope)
    ensures HandlerIn(Walker(StringsTags), TopScope) && HandlerIn(Walker(DefinitionsTags), TopScope)
  {
    OneTagIn("value", Lambda(ValueTag, ElementText), TopScope);
    OneTagIn("var", Lambda(VarTag, ElementText), TopScope);
    OneTagIn("string", Lambda(StringTag, ElementText), TopScope);
    OneTagIn("function", Lambda(FunctionTag, Attributes), TopScope);
    OneTagIn("functions", Walker(FunctionsTags), TopScope);
  }

  /** The floorplan and devices walkers sit in the top scope. */
  lemma ProjectBranchesIn()
    ensures HandlerIn(Walker(FloorplanTags), TopScope) && HandlerIn(Walker(DevicesTags), TopScope)
  {
    DeviceTagsIn();
    OneTagIn("room", Lambda(RoomTag, Attributes), FloorScope);
    OneTagIn("floor", Lambda(FloorTag, Content(RoomTags)), TopScope);
    OneTagIn("device", Lambda(DeviceTag, Content(DeviceTags)), TopScope);
  }

  /** Every handler of the parser's walker tree sits in the scope its lambda expects. */
  lemma ProjectTagsIn()
    ensures TagsIn(ProjectTags, TopScope)
  {
    ProjectLeavesIn();
    ProjectBranchesIn();
    var m := map[];
    PutTagIn(m, "sysap", Walker(SysapTags), TopScope);
    m := m["sysap" := Walker(SysapTags)];
    PutTagIn(m, "config", Walker(ConfigTags), TopScope);
    m := m["config" := Walker(ConfigTags)];
    PutTagIn(m, "strings", Walker(StringsTags), TopScope);
    m := m["strings" := Walker(StringsTags)];
    PutTagIn(m, "definitions", Walker(DefinitionsTags), TopScope);
    m := m["definitions" := Walker(DefinitionsTags)];
    PutTagIn(m, "floorplan", Walker(FloorplanTags), TopScope);
    m := m["floorplan" := Walker(FloorplanTags)];
    PutTagIn(m, "devices", Walker(DevicesTags), TopScope);
    m := m["devices" := Walker(DevicesTags)];
    PutTagIn(map[], "project", Walker(m), TopScope);
  }

  /** A walk with handlers of one scope makes only callbacks of that scope, each with the body its lambda reads. */
  lemma {:induction false} WalkCallsIn(tags: map<string, Handler<Action>>, events: seq<Event>, s: Cursor, d: int,
                                       scope: Scope)
    requires s.pos <= |events|
    requires TagsIn(tags, scope)
    ensures CallsIn(Walk(tags, events, s, d).0.calls, scope)
    decreases |events| - s.pos, 1
  {
    match Advance(events, s)
    case Throws(_) =>
    case Ok((ev, s1)) =>
      match ev {
        case StartTag(name, attributes) =>
          if name in tags {
            HandleCallsIn(tags[name], attributes, events, s1, scope);
            var (w, s2) := Handle(tags[name], attributes, events, s1);
            if w.failure.None? {
              WalkCallsIn(tags, events, s2, d, scope);
            }
          } else {
            WalkCallsIn(tags, events, s1, d, scope);
          }
        case EndTag(_) =>
          if s1.depth != d {
            WalkCallsIn(tags, events, s1, d, scope);
          }
        case EndDocument =>
        case Text(_) =>
          WalkCallsIn(tags, events, s1, d, scope);
      }
  }

  lemma {:induction false} HandleCallsIn(h: Handler<Action>, attributes: seq<Attribute>, events: seq<Event>,
                                         s: Cursor, scope: Scope)
    requires s.pos <= |events|
    requires HandlerIn(h, scope)
    ensures CallsIn(Handle(h, attributes, events, s).0.calls, scope)
    decreases |events| - s.pos, 2
  {
    match h
    case Walker(tags) =>
      WalkCallsIn(tags, events, s, s.depth, scope);
    case Lambda(a, Attributes) =>
    case Lambda(a, ElementText) =>
    case Lambda(a, Content(tags)) =>
      WalkCallsIn(tags, events, s, s.depth, ContentScope(a).value);
  }

  // ---------------------------------------------------------------------
  // What a parse does to the project's tables

  /** The project's tables the parser fills. */
  datatype Tables = Tables(ix: Indexes, sysap: map<string, Option<string>>, config: map<string, Option<string>>)

  function TablesOf(p: FahProject): Tables
    reads p
  {
    Tables(p.Ix(), p.sysap, p.config)
  }

  /** A call of addPart (with the name a channel has at that moment), addSysap or addConfig. */
  datatype Effect =
    | PartAdded(part: Part, name: Option<string>)
    | SysapAdded(key: Option<string>, value: Option<string>)
    | ConfigAdded(key: Option<string>, value: Option<string>)

  /** One effect on the tables; one that throws leaves them as they were. */
  function ApplyEffect(t: Tables, e: Effect): (r: Tables)
    ensures e.PartAdded? ==> r.sysap == t.sysap && r.config == t.config
    ensures e.PartAdded? && IndexPart(t.ix, e.part, e.name).Ok? ==> r.ix == IndexPart(t.ix, e.part, e.name).value
    ensures e.PartAdded? && IndexPart(t.ix, e.part, e.name).Throws? ==> r == t
    ensures e.SysapAdded? ==> r.ix == t.ix && r.config == t.config
    ensures e.SysapAdded? ==> r.sysap == if e.key.None? then t.sysap else t.sysap[e.key.value := e.value]
    ensures e.ConfigAdded? ==> r.ix == t.ix && r.sysap == t.sysap
    ensures e.ConfigAdded? ==> r.config == if e.key.None? then t.config else t.config[e.key.value := e.value]
  {
    match e
    case PartAdded(part, name) =>
      var next := IndexPart(t.ix, part, name);
      if next.Ok? then t.(ix := next.value) else t
    case SysapAdded(key, value) =>
      if key.None? then t else t.(sysap := t.sysap[key.value := value])
    case ConfigAdded(key, value) =>
      if key.None? then t else t.(config := t.config[key.value := value])
  }

  /** The effects in order. */
  function ApplyEffects(t: Tables, log: seq<Effect>): Tables
    decreases |log|
  {
    if log == [] then t else ApplyEffect(ApplyEffects(t, log[..|log| - 1]), log[|log| - 1])
  }

  /** Effects compose: the tables after a then b are the tables after a, then b. */
  lemma {:induction false} ApplyEffectsAppend(t: Tables, a: seq<Effect>, b: seq<Effect>)
    ensures ApplyEffects(t, a + b) == ApplyEffects(ApplyEffects(t, a), b)
    decreases |b|
  {
    if b == [] {
      assert a + b == a;
    } else {
      assert (a + b)[..|a + b| - 1] == a + b[..|b| - 1];
      ApplyEffectsAppend(t, a, b[..|b| - 1]);
    }
  }

  lemma ApplyEffectsOne(t: Tables, e: Effect)
    ensures ApplyEffects(t, [e]) == ApplyEffect(t, e)
  {
    assert [e][..0] == [];
  }

  /** Parts and strings stay where they are when the effects only add to other tables. */
  lemma {:induction false} SysapEffectsKeepParts(t: Tables, log: seq<Effect>)
    requires forall i :: 0 <= i < |log| ==> !log[i].PartAdded?
    ensures ApplyEffects(t, log).ix == t.ix
    decreases |log|
  {
    if log != [] {
      SysapEffectsKeepParts(t, log[..|log| - 1]);
    }
  }

  // ---------------------------------------------------------------------
  // What the callbacks do, read off the calls the walk makes

  /** How many callbacks a run makes: up to and including the first that throws. */
  function Ran(calls: seq<Call<Action>>, fails: Call<Action> -> bool): (n: nat)
    ensures n <= |calls|
  {
    var k := FirstWhere(calls, fails);
    if k < |calls| then k + 1 else |calls|
  }

  /** The exception a run of callbacks ends with: that of the first callback that throws. */
  function FirstFailure(calls: seq<Call<Action>>, fails: Call<Action> -> bool,
                        failure: Call<Action> -> Option<Exception>): Option<Exception>
  {
    var k := FirstWhere(calls, fails);
    if k < |calls| then failure(calls[k]) else None
  }

  /** The exception of a lambda with a content walker: the first callback that throws, then the walker's own. */
  function ContentFailure(c: Call<Action>, fails: Call<Action> -> bool,
                          failure: Call<Action> -> Option<Exception>): Option<Exception>
  {
    if !c.body.ContentBody? then None
    else if FirstFailure(c.body.calls, fails, failure).Some? then FirstFailure(c.body.calls, fails, failure)
    else c.body.failure
  }

  /** The text of the last attribute callback of the action with the given name, or dflt when there is none. */
  function LastAttribute(calls: seq<Call<Action>>, action: Action, key: string, dflt: Option<string>): Option<string>
    decreases |calls|
  {
    if calls == [] then dflt
    else
      var c := calls[|calls| - 1];
      if c.action == action && AttributeValue(c.attributes, "name") == Some(key) && c.body.TextBody? && c.body.text.Ok?
      then Some(c.body.text.value)
      else LastAttribute(calls[..|calls| - 1], action, key, dflt)
  }

  /** The exception a channel's attribute or dataPoint callback throws, if any. */
  function ChannelCallFailure(c: Call<Action>): Option<Exception> {
    match c.action
    case ChannelAttributeTag =>
      if !c.body.TextBody? then None
      else if c.body.text.Throws? then Some(c.body.text.ex)
      else if AttributeValue(c.attributes, "name") == Some("functionId") && ParseInt(c.body.text.value, 16).Throws? then
        Some(NumberFormatException)
      else None
    case DataPointTag =>
      if AttributeValue(c.attributes, "i").None? then Some(NullPointerException) else None
    case _ => None
  }

  predicate ChannelCallFails(c: Call<Action>) {
    ChannelCallFailure(c).Some?
  }

  /** The input data points the dataPoint callbacks name. */
  function DataPointIds(calls: seq<Call<Action>>): set<string>
    decreases |calls|
  {
    if calls == [] then {}
    else
      var c := calls[|calls| - 1];
      DataPointIds(calls[..|calls| - 1])
      + (if c.action == DataPointTag && AttributeValue(c.attributes, "i").Some? then {AttributeValue(c.attributes, "i").value}
         else {})
  }

  /** A channel's function after its callbacks: the function of the last functionId attribute, if any. */
  function FunctionAfter(calls: seq<Call<Action>>, functions: map<int, FahFunction>, dflt: Option<FahFunction>)
    : Option<FahFunction>
  {
    match LastAttribute(calls, ChannelAttributeTag, "functionId", None)
    case None => dflt
    case Some(text) =>
      match ParseInt(text, 16)
      case Throws(_) => dflt
      case Ok(id) => if id in functions then Some(functions[id]) else None
  }

  /** The exception a floor's room callback throws, if any. */
  function RoomCallFailure(c: Call<Action>): Option<Exception> {
    if AttributeValue(c.attributes, "uid").None? then Some(NullPointerException) else None
  }

  predicate RoomCallFails(c: Call<Action>) {
    RoomCallFailure(c).Some?
  }

  /** The exception the channel lambda throws: a null i, then its content walk. */
  function ChannelFailure(c: Call<Action>): Option<Exception> {
    if AttributeValue(c.attributes, "i").None? then Some(NullPointerException)
    else ContentFailure(c, ChannelCallFails, ChannelCallFailure)
  }

  /** The exception a device's attribute or channel callback throws, if any. */
  function DeviceCallFailure(c: Call<Action>): Option<Exception> {
    match c.action
    case DeviceAttributeTag =>
      if c.body.TextBody? && c.body.text.Throws? then Some(c.body.text.ex) else None
    case ChannelTag => ChannelFailure(c)
    case _ => None
  }

  predicate DeviceCallFails(c: Call<Action>) {
    DeviceCallFailure(c).Some?
  }

  /** A device's room after its callbacks: the room the last room attribute names, if any. */
  function RoomAfter(calls: seq<Call<Action>>, rooms: map<string, Room>, dflt: Option<Room>): Option<Room> {
    match LastAttribute(calls, DeviceAttributeTag, "room", None)
    case None => dflt
    case Some(uid) => if uid in rooms then Some(rooms[uid]) else None
  }

  /** The exception a callback of the project's walkers throws, if any. */
  function ProjectCallFailure(c: Call<Action>): Option<Exception> {
    match c.action
    case ValueTag | VarTag =>
      if !c.body.TextBody? then None
      else if c.body.text.Throws? then Some(c.body.text.ex)
      else if AttributeValue(c.attributes, "name").None? then Some(NullPointerException)
      else None
    case StringTag =>
      if ParseNullable(AttributeValue(c.attributes, "nameId"), 16).Throws? then Some(NumberFormatException)
      else if c.body.TextBody? && c.body.text.Throws? then Some(c.body.text.ex)
      else None
    case FunctionTag =>
      if ParseNullable(AttributeValue(c.attributes, "nameId"), 16).Throws?
         || ParseNullable(AttributeValue(c.attributes, "functionId"), 16).Throws? then Some(NumberFormatException)
      else None
    case FloorTag =>
      if ParseNullable(AttributeValue(c.attributes, "level"), 10).Throws? then Some(NumberFormatException)
      else if AttributeValue(c.attributes, "uid").None? then Some(NullPointerException)
      else ContentFailure(c, RoomCallFails, RoomCallFailure)
    case DeviceTag =>
      if ParseNullable(AttributeValue(c.attributes, "nameId"), 16).Throws? then Some(NumberFormatException)
      else if ContentFailure(c, DeviceCallFails, DeviceCallFailure).Some? then
        ContentFailure(c, DeviceCallFails, DeviceCallFailure)
      else if AttributeValue(c.attributes, "serialNumber").None? then Some(NullPointerException)
      else None
    case _ => None
  }

  predicate ProjectCallFails(c: Call<Action>) {
    ProjectCallFailure(c).Some?
  }

  /** The rooms a floor's callbacks add, one per callback, in order. */
  predicate RoomsAdded(floor: Floor, calls: seq<Call<Action>>, log: seq<Effect>) {
    |log| == |calls| &&
    forall j :: 0 <= j < |log| ==>
      log[j].PartAdded? && log[j].part.RoomPart? && log[j].name.None?
      && log[j].part.room.floor == floor && log[j].part.room.uid == AttributeValue(calls[j].attributes, "uid")
  }

  /**
   * The channels a device's callbacks add, one per channel callback, in
   * order: a plain channel of the device under its i attribute, added under
   * its last displayName or else the device's name at that moment.
   */
  ghost predicate ChannelsAdded(device: Device, name: Option<string>, calls: seq<Call<Action>>, log: seq<Effect>)
    decreases |calls|
  {
    if calls == [] then log == []
    else
      var c := calls[|calls| - 1];
      var before := calls[..|calls| - 1];
      if c.action == ChannelTag then
        |log| >= 1 && ChannelsAdded(device, name, before, log[..|log| - 1])
        && ChannelAdded(device, LastAttribute(before, DeviceAttributeTag, "displayName", name), c, log[|log| - 1])
      else ChannelsAdded(device, name, before, log)
  }

  ghost predicate ChannelAdded(device: Device, deviceName: Option<string>, c: Call<Action>, e: Effect) {
    var own := if c.body.ContentBody? then LastAttribute(c.body.calls, ChannelAttributeTag, "displayName", None) else None;
    e.PartAdded? && e.part.ChannelPart? && e.part.channel.device == device && e.part.channel.kind == Plain
    && Some(e.part.channel.id) == AttributeValue(c.attributes, "i")
    && e.name == if own.Some? then own else deviceName
  }

  /** The channels a device's callbacks add are channels of the device, and none are added without a channel callback. */
  lemma {:induction false} ChannelsAddedOf(device: Device, name: Option<string>, calls: seq<Call<Action>>, log: seq<Effect>)
    requires ChannelsAdded(device, name, calls, log)
    ensures forall j :: 0 <= j < |log| ==> log[j].PartAdded? && log[j].part.ChannelPart? && log[j].part.channel.device == device
    ensures log == [] ==> forall j :: 0 <= j < |calls| ==> calls[j].action != ChannelTag
    decreases |calls|
  {
    if calls != [] {
      var before := calls[..|calls| - 1];
      if calls[|calls| - 1].action == ChannelTag {
        ChannelsAddedOf(device, name, before, log[..|log| - 1]);
        assert forall j :: 0 <= j < |log| - 1 ==> log[j] == log[..|log| - 1][j];
      } else {
        ChannelsAddedOf(device, name, before, log);
        assert forall j :: 0 <= j < |calls| - 1 ==> calls[j] == before[j];
      }
    }
  }

  /**
   * What one callback of the project's walkers adds to the tables t it finds:
   * sysap and config values, strings and functions read off its attributes
   * and text, a floor then its rooms, a device's channels then the device.
   */
  ghost predicate ProjectCallEffects(t: Tables, c: Call<Action>, effects: seq<Effect>) {
    match c.action
    case ValueTag =>
      effects == if c.body.TextBody? && c.body.text.Ok? then
        [SysapAdded(AttributeValue(c.attributes, "name"), Some(c.body.text.value))] else []
    case VarTag =>
      effects == if c.body.TextBody? && c.body.text.Ok? then
        [ConfigAdded(AttributeValue(c.attributes, "name"), Some(c.body.text.value))] else []
    case StringTag =>
      var id := ParseNullable(AttributeValue(c.attributes, "nameId"), 16);
      effects == if id.Ok? && c.body.TextBody? && c.body.text.Ok? then
        [PartAdded(StringPart(FahString(id.value, Some(c.body.text.value))), None)] else []
    case FunctionTag =>
      var nameId := ParseNullable(AttributeValue(c.attributes, "nameId"), 16);
      var functionId := ParseNullable(AttributeValue(c.attributes, "functionId"), 16);
      effects == if nameId.Throws? || functionId.Throws? then [] else
        [PartAdded(FunctionPart(FahFunction(functionId.value, AttributeValue(c.attributes, "name"),
                                            if nameId.value in t.ix.strings then Some(t.ix.strings[nameId.value]) else None)),
                   None)]
    case FloorTag =>
      if ParseNullable(AttributeValue(c.attributes, "level"), 10).Throws? then effects == []
      else
        |effects| >= 1 && effects[0].PartAdded? && effects[0].part.FloorPart? && effects[0].name.None?
        && effects[0].part.floor.uid == AttributeValue(c.attributes, "uid")
        && (AttributeValue(c.attributes, "uid").None? ==> |effects| == 1)
        && (AttributeValue(c.attributes, "uid").Some? && c.body.ContentBody? ==>
              RoomsAdded(effects[0].part.floor, c.body.calls[..Ran(c.body.calls, RoomCallFails)], effects[1..]))
    case DeviceTag =>
      if ParseNullable(AttributeValue(c.attributes, "nameId"), 16).Throws? then effects == []
      else if !c.body.ContentBody? then true
      else
        var added := c.body.calls[..FirstWhere(c.body.calls, DeviceCallFails)];
        if ContentFailure(c, DeviceCallFails, DeviceCallFailure).None? then
          |effects| >= 1 && effects[|effects| - 1].PartAdded? && effects[|effects| - 1].part.DevicePart?
          && effects[|effects| - 1].name.None?
          && effects[|effects| - 1].part.device.serialNumber == AttributeValue(c.attributes, "serialNumber")
          && ChannelsAdded(effects[|effects| - 1].part.device, None, added, effects[..|effects| - 1])
        else if effects == [] then forall j :: 0 <= j < |added| ==> added[j].action != ChannelTag
        else effects[0].PartAdded? && effects[0].part.ChannelPart?
             && ChannelsAdded(effects[0].part.channel.device, None, added, effects)
    case _ => true
  }

  /** The effect lists of the callbacks, one after the other. */
  function Concat(parts: seq<seq<Effect>>): seq<Effect>
    decreases |parts|
  {
    if parts == [] then [] else Concat(parts[..|parts| - 1]) + parts[|parts| - 1]
  }

  // ---------------------------------------------------------------------
  // The lambdas

  /** The text a lambda read, or the exception nextText threw. */
  function TextOf(c: Call<Action>): Outcome<string>
    requires c.body.TextBody?
  {
    c.body.text
  }

  /** sysap/value: addSysap(name attribute, text). */
  method OnValue(project: FahProject, attributes: seq<Attribute>, text: Outcome<string>)
    returns (r: Outcome<()>, ghost log: seq<Effect>)
    modifies project`sysap
    ensures TablesOf(project) == ApplyEffects(old(TablesOf(project)), log)
    ensures text.Throws? ==> r == Throws(text.ex) && log == []
    ensures text.Ok? ==> log == [SysapAdded(AttributeValue(attributes, "name"), Some(text.value))]
    ensures text.Ok? ==> r == if AttributeValue(attributes, "name").None? then Throws(NullPointerException) else Ok(())
  {
    if text.Throws? {
      return Throws(text.ex), [];
    }
    log := [SysapAdded(AttributeValue(attributes, "name"), Some(text.value))];
    ApplyEffectsOne(old(TablesOf(project)), log[0]);
    r := project.AddSysap(AttributeValue(attributes, "name"), Some(text.value));
  }

  /** config/var: addConfig(name attribute, text). */
  method OnVar(project: FahProject, attributes: seq<Attribute>, text: Outcome<string>)
    returns (r: Outcome<()>, ghost log: seq<Effect>)
    modifies project`config
    ensures TablesOf(project) == ApplyEffects(old(TablesOf(project)), log)
    ensures text.Throws? ==> r == Throws(text.ex) && log == []
    ensures text.Ok? ==> log == [ConfigAdded(AttributeValue(attributes, "name"), Some(text.value))]
    ensures text.Ok? ==> r == if AttributeValue(attributes, "name").None? then Throws(NullPointerException) else Ok(())
  {
    if text.Throws? {
      return Throws(text.ex), [];
    }
    log := [ConfigAdded(AttributeValue(attributes, "name"), Some(text.value))];
    ApplyEffectsOne(old(TablesOf(project)), log[0]);
    r := project.AddConfig(AttributeValue(attributes, "name"), Some(text.value));
  }

  /**
   * strings/string: the nameId attribute parsed in base 16 (before the text
   * is read), then a FahString with that id and the text is added.
   */
  method OnString(project: FahProject, attributes: seq<Attribute>, text: Outcome<string>)
    returns (r: Outcome<()>, ghost log: seq<Effect>)
    modifies project
    ensures TablesOf(project) == ApplyEffects(old(TablesOf(project)), log)
    ensures var id := ParseNullable(AttributeValue(attributes, "nameId"), 16);
      if id.Throws? then r == Throws(NumberFormatException) && log == []
      else if text.Throws? then r == Throws(text.ex) && log == []
      else r == Ok(()) && log == [PartAdded(StringPart(FahString(id.value, Some(text.value))), None)]
  {
    var id := ParseNullable(AttributeValue(attributes, "nameId"), 16);
    if id.Throws? {
      return Throws(id.ex), [];
    }
    if text.Throws? {
      return Throws(text.ex), [];
    }
    var part := StringPart(FahString(id.value, Some(text.value)));
    log := [PartAdded(part, None)];
    ApplyEffectsOne(old(TablesOf(project)), log[0]);
    r := project.AddPart(part);
  }

  /**
   * functions/function: nameId then functionId, both base 16; a FahFunction
   * with that id, the name attribute as its FID name and the string with
   * that nameId (or null) as its name.
   */
  method OnFunction(project: FahProject, attributes: seq<Attribute>)
    returns (r: Outcome<()>, ghost log: seq<Effect>)
    modifies project
    ensures TablesOf(project) == ApplyEffects(old(TablesOf(project)), log)
    ensures var nameId := ParseNullable(AttributeValue(attributes, "nameId"), 16);
      var functionId := ParseNullable(AttributeValue(attributes, "functionId"), 16);
      if nameId.Throws? || functionId.Throws? then r == Throws(NumberFormatException) && log == []
      else
        r == Ok(()) &&
        log == [PartAdded(FunctionPart(FahFunction(functionId.value, AttributeValue(attributes, "name"),
                                                   old(project.GetStringByNameId(nameId.value)))), None)]
  {
    var nameId := ParseNullable(AttributeValue(attributes, "nameId"), 16);
    if nameId.Throws? {
      return Throws(nameId.ex), [];
    }
    var functionId := ParseNullable(AttributeValue(attributes, "functionId"), 16);
    if functionId.Throws? {
      return Throws(functionId.ex), [];
    }
    var f := FahFunction(functionId.value, AttributeValue(attributes, "name"), project.GetStringByNameId(nameId.value));
    log := [PartAdded(FunctionPart(f), None)];
    ApplyEffectsOne(old(TablesOf(project)), log[0]);
    r := project.AddPart(FunctionPart(f));
  }

  /** floor/room: a room on the floor with the uid and name attributes, then added. */
  method OnRoom(project: FahProject, floor: Floor, attributes: seq<Attribute>)
    returns (r: Outcome<()>, ghost log: seq<Effect>, room: Room)
    modifies project, floor`rooms
    ensures fresh(room) && room.floor == floor
    ensures room.uid == AttributeValue(attributes, "uid") && room.name == AttributeValue(attributes, "name")
    ensures floor.rooms == old(floor.rooms) + {room}
    ensures log == [PartAdded(RoomPart(room), None)]
    ensures r == if room.uid.None? then Throws(NullPointerException) else Ok(())
    ensures TablesOf(project) == ApplyEffects(old(TablesOf(project)), log)
    ensures RoomsFrom(project)
  {
    room := new Room(floor, AttributeValue(attributes, "uid"));
    room.name := AttributeValue(attributes, "name");
    log := [PartAdded(RoomPart(room), None)];
    ApplyEffectsOne(old(TablesOf(project)), log[0]);
    r := project.AddPart(RoomPart(room));
  }

  /** Rooms of the project that were there before or are new. */
  twostate predicate RoomsFrom(project: FahProject)
    reads project
  {
    forall r :: r in project.roomByUid.Values ==> r in old(project.roomByUid.Values) || fresh(r)
  }

  /** Log entries that each add a room of the floor, among the given rooms. */
  predicate RoomsOf(log: seq<Effect>, floor: Floor, rooms: set<Room>) {
    forall i :: 0 <= i < |log| ==>
      log[i].PartAdded? && log[i].part.RoomPart? && log[i].part.room.floor == floor && log[i].part.room in rooms
  }

  lemma RoomsOfMore(log: seq<Effect>, floor: Floor, rooms: set<Room>, more: set<Room>, e: Effect)
    requires RoomsOf(log, floor, rooms) && rooms <= more
    requires e.PartAdded? && e.part.RoomPart? && e.part.room.floor == floor && e.part.room in more
    ensures RoomsOf(log + [e], floor, more)
  {
  }

  /** The first k + 1 callbacks are the first k, then the next one. */
  lemma TakeOneMore(calls: seq<Call<Action>>, k: nat)
    requires k < |calls|
    ensures calls[..k + 1] == calls[..k] + [calls[k]]
  {
  }

  /** The exception of a floor element: its level, then a null uid, then its content walk. */
  lemma FloorElementFailure(attributes: seq<Attribute>, calls: seq<Call<Action>>, failure: Option<Exception>)
    ensures ProjectCallFailure(Call(FloorTag, attributes, ContentBody(calls, failure))) ==
      if ParseNullable(AttributeValue(attributes, "level"), 10).Throws? then Some(NumberFormatException)
      else if AttributeValue(attributes, "uid").None? then Some(NullPointerException)
      else if FirstFailure(calls, RoomCallFails, RoomCallFailure).Some? then FirstFailure(calls, RoomCallFails, RoomCallFailure)
      else failure
  {
  }

  /** Adding one room callback to a floor's run adds its room. */
  lemma RoomsAddedSnoc(floor: Floor, calls: seq<Call<Action>>, c: Call<Action>, log: seq<Effect>, e: Effect)
    requires RoomsAdded(floor, calls, log)
    requires e.PartAdded? && e.part.RoomPart? && e.name.None? && e.part.room.floor == floor
    requires e.part.room.uid == AttributeValue(c.attributes, "uid")
    ensures RoomsAdded(floor, calls + [c], log + [e])
  {
    assert forall j :: 0 <= j < |calls| ==> (calls + [c])[j] == calls[j];
  }

  /** The room callbacks of a floor's content walker, in order, until one throws. */
  method RunFloor(project: FahProject, floor: Floor, calls: seq<Call<Action>>)
    returns (r: Outcome<()>, ghost log: seq<Effect>)
    requires CallsIn(calls, FloorScope)
    modifies project, floor`rooms
    ensures TablesOf(project) == ApplyEffects(old(TablesOf(project)), log)
    ensures RoomsFrom(project)
    ensures old(floor.rooms) <= floor.rooms
    ensures RoomsOf(log, floor, floor.rooms)
    ensures ExceptionOf(r) == FirstFailure(calls, RoomCallFails, RoomCallFailure)
    ensures RoomsAdded(floor, calls[..Ran(calls, RoomCallFails)], log)
  {
    log := [];
    r := Ok(());
    for k := 0 to |calls|
      invariant r.Ok? && k <= FirstWhere(calls, RoomCallFails)
      invariant TablesOf(project) == ApplyEffects(old(TablesOf(project)), log)
      invariant RoomsFrom(project)
      invariant old(floor.rooms) <= floor.rooms
      invariant RoomsOf(log, floor, floor.rooms)
      invariant RoomsAdded(floor, calls[..k], log)
    {
      FirstWhereAt(calls, RoomCallFails, k);
      var step;
      ghost var effects;
      var room;
      ghost var rooms := floor.rooms;
      step, effects, room := OnRoom(project, floor, calls[k].attributes);
      ApplyEffectsAppend(old(TablesOf(project)), log, effects);
      RoomsOfMore(log, floor, rooms, floor.rooms, effects[0]);
      TakeOneMore(calls, k);
      RoomsAddedSnoc(floor, calls[..k], calls[k], log, effects[0]);
      log := log + effects;
      if step.Throws? {
        return step, log;
      }
    }
    assert calls[..|calls|] == calls;
  }

  /** The floor a floor element names: its uid, its level (base 10) and its name. */
  method NewFloor(attributes: seq<Attribute>) returns (r: Outcome<Floor>)
    ensures var level := ParseNullable(AttributeValue(attributes, "level"), 10);
      if level.Throws? then r == Throws(NumberFormatException)
      else
        r.Ok? && fresh(r.value) && r.value.uid == AttributeValue(attributes, "uid")
        && r.value.level == level.value && r.value.name == AttributeValue(attributes, "name")
        && r.value.rooms == {}
  {
    var level := ParseNullable(AttributeValue(attributes, "level"), 10);
    if level.Throws? {
      return Throws(level.ex);
    }
    var floor := new Floor(AttributeValue(attributes, "uid"));
    floor.level := level.value;
    floor.name := AttributeValue(attributes, "name");
    r := Ok(floor);
  }

  /** addPart of a floor: it throws on a null uid, and the tables take the floor as ApplyEffect says. */
  method AddFloor(project: FahProject, floor: Floor) returns (r: Outcome<()>)
    modifies project
    ensures r == if floor.uid.None? then Throws(NullPointerException) else Ok(())
    ensures TablesOf(project) == ApplyEffects(old(TablesOf(project)), [PartAdded(FloorPart(floor), None)])
    ensures project.roomByUid == old(project.roomByUid)
  {
    r := project.AddPart(FloorPart(floor));
    ApplyEffectsOne(old(TablesOf(project)), PartAdded(FloorPart(floor), None));
  }

  /**
   * floorplan/floor: uid, level (base 10) and name; the floor is added, then
   * its content walker builds its rooms.
   */
  method OnFloor(project: FahProject, attributes: seq<Attribute>, calls: seq<Call<Action>>, failure: Option<Exception>)
    returns (r: Outcome<()>, ghost log: seq<Effect>, floor: Floor?, ghost rooms: seq<Effect>)
    requires CallsIn(calls, FloorScope)
    modifies project
    ensures TablesOf(project) == ApplyEffects(old(TablesOf(project)), log)
    ensures RoomsFrom(project)
    ensures ExceptionOf(r) == ProjectCallFailure(Call(FloorTag, attributes, ContentBody(calls, failure)))
    ensures var level := ParseNullable(AttributeValue(attributes, "level"), 10);
      level.Throws? ==> log == [] && floor == null
    ensures var level := ParseNullable(AttributeValue(attributes, "level"), 10);
      level.Ok? ==>
        floor != null && fresh(floor) && floor.uid == AttributeValue(attributes, "uid")
        && floor.level == level.value && floor.name == AttributeValue(attributes, "name")
        && log == [PartAdded(FloorPart(floor), None)] + rooms
        && RoomsOf(rooms, floor, floor.rooms)
        && (floor.uid.None? ==> rooms == [])
        && (floor.uid.Some? ==> RoomsAdded(floor, calls[..Ran(calls, RoomCallFails)], rooms))
  {
    FloorElementFailure(attributes, calls, failure);
    var made := NewFloor(attributes);
    if made.Throws? {
      return Throws(made.ex), [], null, [];
    }
    floor := made.value;
    log := [PartAdded(FloorPart(floor), None)];
    rooms := [];
    r := AddFloor(project, floor);
    if r.Throws? {
      return;
    }
    r, rooms := RunFloor(project, floor, calls);
    ApplyEffectsAppend(old(TablesOf(project)), log, rooms);
    log := log + rooms;
    if r.Ok? && failure.Some? {
      r := Throws(failure.value);
    }
  }

  /** The device's room is one of the project's rooms. */
  predicate RoomKnown(project: FahProject, device: Device)
    reads project, device
  {
    device.room.Some? ==> device.room.value in project.roomByUid.Values
  }

  /**
   * device/attribute: the name attribute, then the text. "displayName" sets
   * the device's name, "room" places the device in the room with that uid
   * (or in none when there is no such room); other names are ignored.
   */
  method OnDeviceAttribute(project: FahProject, device: Device, attributes: seq<Attribute>, text: Outcome<string>)
    returns (r: Outcome<()>)
    requires RoomKnown(project, device)
    modifies device`name, device`room, project.roomByUid.Values`devices
    ensures RoomKnown(project, device)
    ensures text.Throws? ==> r == Throws(text.ex)
    ensures text.Ok? ==> r == Ok(())
    ensures var key := AttributeValue(attributes, "name");
      if text.Ok? && key == Some("displayName") then device.name == Some(text.value) && device.room == old(device.room)
      else if text.Ok? && key == Some("room") then
        device.name == old(device.name) && device.room == old(project.GetRoomByUid(Some(text.value))).value
        && (device.room.Some? ==> device in device.room.value.devices)
      else device.name == old(device.name) && device.room == old(device.room)
    ensures var key := AttributeValue(attributes, "name");
      text.Ok? && key == Some("room") ==>
        (old(device.room).Some? && old(device.room) != device.room ==>
           old(device.room).value.devices == old(device.room.value.devices) - {device}
           && device !in old(device.room).value.devices)
        && (var newRoom := device.room; newRoom.Some? ==> newRoom.value.devices == old(newRoom.value.devices) + {device})
    ensures var key := AttributeValue(attributes, "name");
      !(text.Ok? && key == Some("room")) ==> forall rm :: rm in project.roomByUid.Values ==> rm.devices == old(rm.devices)
    ensures forall rm :: rm in project.roomByUid.Values && Some(rm) != old(device.room) && Some(rm) != device.room ==>
      rm.devices == old(rm.devices)
  {
    if text.Throws? {
      return Throws(text.ex);
    }
    var key := AttributeValue(attributes, "name");
    if key == Some("displayName") {
      device.name := Some(text.value);
    }
    if key == Some("room") {
      var room := project.GetRoomByUid(Some(text.value));
      device.SetRoom(room.value);
    }
    r := Ok(());
  }

  /**
   * channel/attribute: "displayName" sets the channel's name; "functionId"
   * is parsed in base 16 and its function (or null) becomes the channel's
   * function; other names are ignored.
   */
  method OnChannelAttribute(project: FahProject, channel: Channel, attributes: seq<Attribute>, text: Outcome<string>)
    returns (r: Outcome<()>)
    modifies channel`name, channel`fahFunction
    ensures text.Throws? ==> r == Throws(text.ex) && unchanged(channel)
    ensures var key := AttributeValue(attributes, "name");
      text.Ok? && key == Some("displayName") ==>
        r == Ok(()) && channel.name == Some(text.value) && channel.fahFunction == old(channel.fahFunction)
    ensures var key := AttributeValue(attributes, "name");
      text.Ok? && key == Some("functionId") ==>
        var id := ParseInt(text.value, 16);
        if id.Throws? then r == Throws(NumberFormatException) && unchanged(channel)
        else r == Ok(()) && channel.name == old(channel.name)
             && channel.fahFunction == project.GetFunctionByFunctionId(id.value)
    ensures var key := AttributeValue(attributes, "name");
      text.Ok? && key != Some("displayName") && key != Some("functionId") ==> r == Ok(()) && unchanged(channel)
  {
    if text.Throws? {
      return Throws(text.ex);
    }
    var key := AttributeValue(attributes, "name");
    if key == Some("displayName") {
      channel.SetName(Some(text.value));
    }
    if key == Some("functionId") {
      var id := ParseInt(text.value, 16);
      if id.Throws? {
        return Throws(id.ex);
      }
      channel.fahFunction := project.GetFunctionByFunctionId(id.value);
    }
    r := Ok(());
  }

  /** inputs/dataPoint: the i attribute joins the channel's input data points; a null one throws (TreeSet). */
  method OnDataPoint(channel: Channel, attributes: seq<Attribute>) returns (r: Outcome<()>)
    modifies channel`inputDataPoints
    ensures var i := AttributeValue(attributes, "i");
      if i.None? then r == Throws(NullPointerException) && unchanged(channel)
      else r == Ok(()) && channel.inputDataPoints == old(channel.inputDataPoints) + {i.value}
  {
    var i := AttributeValue(attributes, "i");
    if i.None? {
      return Throws(NullPointerException);
    }
    channel.inputDataPoints := channel.inputDataPoints + {i.value};
    r := Ok(());
  }

  /** The displayName or functionId text an attribute callback sets, if it is one. */
  predicate SetsAttribute(c: Call<Action>, action: Action, key: string) {
    c.action == action && AttributeValue(c.attributes, "name") == Some(key) && c.body.TextBody? && c.body.text.Ok?
  }

  /** One more callback: the last attribute is its text when it sets one. */
  lemma LastAttributeSnoc(calls: seq<Call<Action>>, c: Call<Action>, action: Action, key: string, dflt: Option<string>)
    ensures LastAttribute(calls + [c], action, key, dflt) ==
      if SetsAttribute(c, action, key) then Some(c.body.text.value) else LastAttribute(calls, action, key, dflt)
  {
    assert (calls + [c])[..|calls|] == calls;
  }

  lemma DataPointIdsSnoc(calls: seq<Call<Action>>, c: Call<Action>)
    ensures DataPointIds(calls + [c]) == DataPointIds(calls)
      + (if c.action == DataPointTag && AttributeValue(c.attributes, "i").Some? then {AttributeValue(c.attributes, "i").value}
         else {})
  {
    assert (calls + [c])[..|calls|] == calls;
  }

  /** One callback of a channel's content walker. */
  method ChannelStep(project: FahProject, channel: Channel, c: Call<Action>) returns (r: Outcome<()>)
    requires CallIn(c, ChannelScope)
    modifies channel`name, channel`fahFunction, channel`inputDataPoints
    ensures ExceptionOf(r) == ChannelCallFailure(c)
    ensures r.Throws? ==> unchanged(channel)
    ensures r.Ok? ==>
      channel.name == (if SetsAttribute(c, ChannelAttributeTag, "displayName") then Some(c.body.text.value) else old(channel.name))
      && channel.fahFunction == (if SetsAttribute(c, ChannelAttributeTag, "functionId") && ParseInt(c.body.text.value, 16).Ok?
                                 then project.GetFunctionByFunctionId(ParseInt(c.body.text.value, 16).value)
                                 else old(channel.fahFunction))
      && channel.inputDataPoints == old(channel.inputDataPoints)
           + (if c.action == DataPointTag && AttributeValue(c.attributes, "i").Some?
              then {AttributeValue(c.attributes, "i").value} else {})
  {
    match c.action {
      case ChannelAttributeTag =>
        r := OnChannelAttribute(project, channel, c.attributes, TextOf(c));
      case DataPointTag =>
        r := OnDataPoint(channel, c.attributes);
    }
  }

  /**
   * The callbacks of a channel's content walker, in order, until one throws:
   * the channel takes the last displayName and functionId it is given and
   * every data point id of its inputs.
   */
  method RunChannel(project: FahProject, channel: Channel, calls: seq<Call<Action>>) returns (r: Outcome<()>)
    requires CallsIn(calls, ChannelScope)
    modifies channel`name, channel`fahFunction, channel`inputDataPoints
    ensures ExceptionOf(r) == FirstFailure(calls, ChannelCallFails, ChannelCallFailure)
    ensures var done := calls[..FirstWhere(calls, ChannelCallFails)];
      channel.name == LastAttribute(done, ChannelAttributeTag, "displayName", old(channel.name))
      && channel.fahFunction == FunctionAfter(done, project.functionByFunctionId, old(channel.fahFunction))
      && channel.inputDataPoints == old(channel.inputDataPoints) + DataPointIds(done)
  {
    r := Ok(());
    for k := 0 to |calls|
      invariant r.Ok? && k <= FirstWhere(calls, ChannelCallFails)
      invariant channel.name == LastAttribute(calls[..k], ChannelAttributeTag, "displayName", old(channel.name))
      invariant channel.fahFunction == FunctionAfter(calls[..k], project.functionByFunctionId, old(channel.fahFunction))
      invariant channel.inputDataPoints == old(channel.inputDataPoints) + DataPointIds(calls[..k])
    {
      TakeOneMore(calls, k);
      FirstWhereAt(calls, ChannelCallFails, k);
      LastAttributeSnoc(calls[..k], calls[k], ChannelAttributeTag, "displayName", old(channel.name));
      LastAttributeSnoc(calls[..k], calls[k], ChannelAttributeTag, "functionId", None);
      DataPointIdsSnoc(calls[..k], calls[k]);
      var step := ChannelStep(project, channel, calls[k]);
      if step.Throws? {
        return step;
      }
    }
    assert calls[..|calls|] == calls;
  }

  /**
   * What the channel lambda does after its content walker: a channel still
   * without a name takes its device's name, when that is not null; then it
   * is added.
   */
  method CompleteChannel(project: FahProject, channel: Channel) returns (r: Outcome<()>, ghost log: seq<Effect>)
    modifies project, channel`name, channel`project
    ensures channel.project == Some(project)
    ensures channel.name == if old(channel.name).None? then channel.device.name else old(channel.name)
    ensures r == Ok(())
    ensures log == [PartAdded(ChannelPart(channel), channel.name)]
    ensures TablesOf(project) == ApplyEffects(old(TablesOf(project)), log)
  {
    if channel.name.None? {
      var name := channel.device.name;
      if name.Some? {
        channel.SetName(name);
      }
    }
    log := [PartAdded(ChannelPart(channel), channel.name)];
    ghost var before := TablesOf(project);
    r := project.AddPart(ChannelPart(channel));
    ApplyEffectsOne(before, log[0]);
  }

  /**
   * devices/device/channels/channel: a channel of the device with the i
   * attribute as id (a null id throws in the device's TreeMap before
   * anything is built), its content walker, then CompleteChannel.
   */
  method OnChannel(project: FahProject, device: Device, attributes: seq<Attribute>, calls: seq<Call<Action>>,
                   failure: Option<Exception>)
    returns (r: Outcome<()>, ghost log: seq<Effect>, channel: Channel?)
    requires CallsIn(calls, ChannelScope)
    modifies project, device`channelsById
    ensures TablesOf(project) == ApplyEffects(old(TablesOf(project)), log)
    ensures project.roomByUid == old(project.roomByUid)
    ensures ExceptionOf(r) == ChannelFailure(Call(ChannelTag, attributes, ContentBody(calls, failure)))
    ensures r.Throws? ==> log == []
    ensures AttributeValue(attributes, "i").None? ==> channel == null && device.channelsById == old(device.channelsById)
    ensures AttributeValue(attributes, "i").Some? ==>
      channel != null && fresh(channel) && channel.device == device && channel.kind == Plain
      && channel.id == AttributeValue(attributes, "i").value
      && device.channelsById == old(device.channelsById)[channel.id := channel]
    ensures r.Ok? ==>
      channel != null && log == [PartAdded(ChannelPart(channel), channel.name)] && channel.project == Some(project)
      && ChannelAdded(device, old(device.name), Call(ChannelTag, attributes, ContentBody(calls, failure)), log[0])
      && channel.fahFunction == FunctionAfter(calls, old(project.functionByFunctionId), None)
      && channel.inputDataPoints == DataPointIds(calls)
  {
    var i := AttributeValue(attributes, "i");
    if i.None? {
      return Throws(NullPointerException), [], null;
    }
    channel := new Channel(device, i.value, None, Plain);
    log := [];
    r := RunChannel(project, channel, calls);
    if r.Throws? {
      return;
    }
    assert FirstWhere(calls, ChannelCallFails) == |calls|;
    assert calls[..|calls|] == calls;
    if failure.Some? {
      return Throws(failure.value), log, channel;
    }
    r, log := CompleteChannel(project, channel);
  }

  /** Adding one callback to a device's run: a channel callback adds its channel, any other adds nothing. */
  lemma ChannelsAddedSnoc(device: Device, name: Option<string>, calls: seq<Call<Action>>, c: Call<Action>,
                          log: seq<Effect>, effects: seq<Effect>)
    requires ChannelsAdded(device, name, calls, log)
    requires c.action == ChannelTag ==>
      |effects| == 1 && ChannelAdded(device, LastAttribute(calls, DeviceAttributeTag, "displayName", name), c, effects[0])
    requires c.action != ChannelTag ==> effects == []
    ensures ChannelsAdded(device, name, calls + [c], log + effects)
  {
    assert (calls + [c])[..|calls|] == calls;
    if c.action == ChannelTag {
      assert (log + effects)[..|log|] == log;
    } else {
      assert log + effects == log;
    }
  }

  /** A device's name and room after the given callbacks, starting from name0 and room0. */
  predicate DeviceAttributesAfter(done: seq<Call<Action>>, rooms: map<string, Room>, name0: Option<string>, room0: Option<Room>,
                                  name: Option<string>, room: Option<Room>)
  {
    name == LastAttribute(done, DeviceAttributeTag, "displayName", name0) && room == RoomAfter(done, rooms, room0)
  }

  /** One more callback: a displayName or room attribute replaces the name or room. */
  lemma DeviceAttributesSnoc(done: seq<Call<Action>>, c: Call<Action>, rooms: map<string, Room>,
                             name0: Option<string>, room0: Option<Room>,
                             name: Option<string>, room: Option<Room>, name': Option<string>, room': Option<Room>)
    requires DeviceAttributesAfter(done, rooms, name0, room0, name, room)
    requires name' == if SetsAttribute(c, DeviceAttributeTag, "displayName") then Some(c.body.text.value) else name
    requires room' ==
      if !SetsAttribute(c, DeviceAttributeTag, "room") then room
      else if c.body.text.value in rooms then Some(rooms[c.body.text.value])
      else None
    ensures DeviceAttributesAfter(done + [c], rooms, name0, room0, name', room')
  {
    LastAttributeSnoc(done, c, DeviceAttributeTag, "displayName", name0);
    LastAttributeSnoc(done, c, DeviceAttributeTag, "room", None);
  }

  /**
   * One callback of a device's content walker, after the callbacks done:
   * it throws as DeviceCallFailure says, and otherwise extends what the
   * run so far has added and set by what this callback adds and sets.
   */
  method DeviceStep(project: FahProject, device: Device, c: Call<Action>, ghost done: seq<Call<Action>>,
                    ghost rooms: map<string, Room>, ghost name0: Option<string>, ghost room0: Option<Room>,
                    ghost log: seq<Effect>)
    returns (r: Outcome<()>, ghost effects: seq<Effect>)
    requires CallIn(c, DeviceScope)
    requires RoomKnown(project, device)
    requires rooms == project.roomByUid
    requires ChannelsAdded(device, name0, done, log)
    requires DeviceAttributesAfter(done, rooms, name0, room0, device.name, device.room)
    modifies project, device`name, device`room, device`channelsById, project.roomByUid.Values`devices
    ensures ExceptionOf(r) == DeviceCallFailure(c)
    ensures TablesOf(project) == ApplyEffects(old(TablesOf(project)), effects)
    ensures project.roomByUid == old(project.roomByUid)
    ensures RoomKnown(project, device)
    ensures device.typ == old(device.typ)
    ensures r.Throws? ==> effects == [] && device.name == old(device.name) && device.room == old(device.room)
    ensures r.Ok? ==>
      ChannelsAdded(device, name0, done + [c], log + effects)
      && DeviceAttributesAfter(done + [c], rooms, name0, room0, device.name, device.room)
  {
    match c.action {
      case DeviceAttributeTag =>
        r := OnDeviceAttribute(project, device, c.attributes, TextOf(c));
        effects := [];
      case ChannelTag =>
        assert c == Call(ChannelTag, c.attributes, ContentBody(c.body.calls, c.body.failure));
        var channel;
        r, effects, channel := OnChannel(project, device, c.attributes, c.body.calls, c.body.failure);
    }
    if r.Ok? {
      DeviceAttributesSnoc(done, c, rooms, name0, room0, old(device.name), old(device.room), device.name, device.room);
      ChannelsAddedSnoc(device, name0, done, c, log, effects);
    }
  }

  /**
   * The callbacks of a device's content walker, in order, until one throws:
   * the device takes the last displayName and room it is given, and each
   * channel callback adds its channel under the name it has then.
   */
  method RunDevice(project: FahProject, device: Device, calls: seq<Call<Action>>)
    returns (r: Outcome<()>, ghost log: seq<Effect>)
    requires CallsIn(calls, DeviceScope)
    requires RoomKnown(project, device)
    modifies project, device`name, device`room, device`channelsById, project.roomByUid.Values`devices
    ensures TablesOf(project) == ApplyEffects(old(TablesOf(project)), log)
    ensures project.roomByUid == old(project.roomByUid)
    ensures device.typ == old(device.typ)
    ensures ExceptionOf(r) == FirstFailure(calls, DeviceCallFails, DeviceCallFailure)
    ensures var done := calls[..FirstWhere(calls, DeviceCallFails)];
      ChannelsAdded(device, old(device.name), done, log)
      && DeviceAttributesAfter(done, old(project.roomByUid), old(device.name), old(device.room), device.name, device.room)
  {
    log := [];
    r := Ok(());
    for k := 0 to |calls|
      invariant r.Ok? && k <= FirstWhere(calls, DeviceCallFails)
      invariant TablesOf(project) == ApplyEffects(old(TablesOf(project)), log)
      invariant project.roomByUid == old(project.roomByUid)
      invariant RoomKnown(project, device)
      invariant device.typ == old(device.typ)
      invariant ChannelsAdded(device, old(device.name), calls[..k], log)
      invariant DeviceAttributesAfter(calls[..k], old(project.roomByUid), old(device.name), old(device.room), device.name, device.room)
    {
      TakeOneMore(calls, k);
      FirstWhereAt(calls, DeviceCallFails, k);
      var step;
      ghost var effects;
      step, effects := DeviceStep(project, device, calls[k], calls[..k], old(project.roomByUid), old(device.name),
                                  old(device.room), log);
      if step.Throws? {
        return step, log;
      }
      ApplyEffectsAppend(old(TablesOf(project)), log, effects);
      log := log + effects;
    }
    assert calls[..|calls|] == calls;
  }

  /** The device a device element names: its serial number, and the string its nameId (base 16) names as its type. */
  method NewDevice(project: FahProject, attributes: seq<Attribute>) returns (r: Outcome<Device>)
    ensures var nameId := ParseNullable(AttributeValue(attributes, "nameId"), 16);
      if nameId.Throws? then r == Throws(NumberFormatException)
      else
        r.Ok? && fresh(r.value) && r.value.serialNumber == AttributeValue(attributes, "serialNumber")
        && r.value.typ == project.GetStringByNameId(nameId.value)
        && r.value.name.None? && r.value.room.None? && r.value.channelsById == map[]
  {
    var serialNumber := AttributeValue(attributes, "serialNumber");
    var nameId := ParseNullable(AttributeValue(attributes, "nameId"), 16);
    if nameId.Throws? {
      return Throws(nameId.ex);
    }
    var device := new Device(serialNumber);
    device.typ := project.GetStringByNameId(nameId.value);
    r := Ok(device);
  }

  /** The exception of a device element: its nameId, then its content walk, then a null serial number. */
  lemma DeviceElementFailure(attributes: seq<Attribute>, calls: seq<Call<Action>>, failure: Option<Exception>)
    ensures var c := Call(DeviceTag, attributes, ContentBody(calls, failure));
      var content := ContentFailure(c, DeviceCallFails, DeviceCallFailure);
      content == (if FirstFailure(calls, DeviceCallFails, DeviceCallFailure).Some?
                  then FirstFailure(calls, DeviceCallFails, DeviceCallFailure) else failure)
      && ProjectCallFailure(c) ==
         if ParseNullable(AttributeValue(attributes, "nameId"), 16).Throws? then Some(NumberFormatException)
         else if content.Some? then content
         else if AttributeValue(attributes, "serialNumber").None? then Some(NullPointerException)
         else None
  {
  }

  /** addPart of a device: it throws on a null serial number, and the tables take the device either way as ApplyEffect says. */
  method AddDevice(project: FahProject, device: Device) returns (r: Outcome<()>)
    modifies project, device`project
    ensures r == if device.serialNumber.None? then Throws(NullPointerException) else Ok(())
    ensures TablesOf(project) == ApplyEffects(old(TablesOf(project)), [PartAdded(DevicePart(device), None)])
    ensures device.project == Some(project)
    ensures project.roomByUid == old(project.roomByUid)
  {
    r := project.AddPart(DevicePart(device));
    ApplyEffectsOne(old(TablesOf(project)), PartAdded(DevicePart(device), None));
  }

  /**
   * The device lambda once its device is built: the content walker, then
   * addPart, unless the walk threw.
   */
  method CompleteDevice(project: FahProject, device: Device, calls: seq<Call<Action>>, failure: Option<Exception>)
    returns (r: Outcome<()>, ghost log: seq<Effect>, ghost channels: seq<Effect>)
    requires CallsIn(calls, DeviceScope)
    requires device.room.None?
    modifies project, device, project.roomByUid.Values`devices
    ensures TablesOf(project) == ApplyEffects(old(TablesOf(project)), log)
    ensures project.roomByUid == old(project.roomByUid)
    ensures device.typ == old(device.typ)
    ensures var content := if FirstFailure(calls, DeviceCallFails, DeviceCallFailure).Some?
                           then FirstFailure(calls, DeviceCallFails, DeviceCallFailure) else failure;
      ExceptionOf(r) == (if content.Some? then content
                         else if device.serialNumber.None? then Some(NullPointerException) else None)
      && log == if content.None? then channels + [PartAdded(DevicePart(device), None)] else channels
    ensures var done := calls[..FirstWhere(calls, DeviceCallFails)];
      ChannelsAdded(device, old(device.name), done, channels)
      && device.name == LastAttribute(done, DeviceAttributeTag, "displayName", old(device.name))
      && device.room == RoomAfter(done, old(project.roomByUid), None)
    ensures r.Ok? ==> device.project == Some(project)
  {
    r, channels := RunDevice(project, device, calls);
    log := channels;
    if r.Ok? && failure.Some? {
      r := Throws(failure.value);
    }
    if r.Throws? {
      return;
    }
    r := AddDevice(project, device);
    ApplyEffectsAppend(old(TablesOf(project)), log, [PartAdded(DevicePart(device), None)]);
    log := log + [PartAdded(DevicePart(device), None)];
  }

  /**
   * devices/device: serialNumber, then nameId (base 16); the device takes
   * the string with that nameId as its type; its content walker sets its
   * attributes and builds and adds its channels; then the device is added.
   */
  method OnDevice(project: FahProject, attributes: seq<Attribute>, calls: seq<Call<Action>>, failure: Option<Exception>)
    returns (r: Outcome<()>, ghost log: seq<Effect>, device: Device?, ghost channels: seq<Effect>)
    requires CallsIn(calls, DeviceScope)
    modifies project, project.roomByUid.Values`devices
    ensures TablesOf(project) == ApplyEffects(old(TablesOf(project)), log)
    ensures project.roomByUid == old(project.roomByUid)
    ensures ExceptionOf(r) == ProjectCallFailure(Call(DeviceTag, attributes, ContentBody(calls, failure)))
    ensures var nameId := ParseNullable(AttributeValue(attributes, "nameId"), 16);
      nameId.Throws? ==> log == [] && device == null
    ensures var nameId := ParseNullable(AttributeValue(attributes, "nameId"), 16);
      nameId.Ok? ==>
        device != null && fresh(device) && device.serialNumber == AttributeValue(attributes, "serialNumber")
        && device.typ == old(project.GetStringByNameId(nameId.value))
        && var done := calls[..FirstWhere(calls, DeviceCallFails)];
        ChannelsAdded(device, None, done, channels)
        && device.name == LastAttribute(done, DeviceAttributeTag, "displayName", None)
        && device.room == RoomAfter(done, old(project.roomByUid), None)
        && log == if ContentFailure(Call(DeviceTag, attributes, ContentBody(calls, failure)), DeviceCallFails, DeviceCallFailure).None?
                  then channels + [PartAdded(DevicePart(device), None)] else channels
    ensures r.Ok? ==> device != null && device.project == Some(project)
  {
    DeviceElementFailure(attributes, calls, failure);
    var made := NewDevice(project, attributes);
    if made.Throws? {
      return Throws(made.ex), [], null, [];
    }
    device := made.value;
    r, log, channels := CompleteDevice(project, device, calls, failure);
  }

  /** A floor or device callback of the top-level walkers: its exception, and the effects ProjectCallEffects names. */
  method ElementStep(project: FahProject, c: Call<Action>) returns (r: Outcome<()>, ghost effects: seq<Effect>)
    requires CallIn(c, TopScope) && (c.action == FloorTag || c.action == DeviceTag)
    modifies project, project.roomByUid.Values`devices
    ensures TablesOf(project) == ApplyEffects(old(TablesOf(project)), effects)
    ensures RoomsFrom(project)
    ensures ExceptionOf(r) == ProjectCallFailure(c)
    ensures ProjectCallEffects(old(TablesOf(project)), c, effects)
  {
    assert c == Call(c.action, c.attributes, ContentBody(c.body.calls, c.body.failure));
    if c.action == FloorTag {
      var floor;
      ghost var rooms;
      r, effects, floor, rooms := OnFloor(project, c.attributes, c.body.calls, c.body.failure);
      if floor != null {
        assert effects[1..] == rooms;
      }
    } else {
      var device;
      ghost var channels;
      r, effects, device, channels := OnDevice(project, c.attributes, c.body.calls, c.body.failure);
      if device != null {
        if ContentFailure(c, DeviceCallFails, DeviceCallFailure).None? {
          assert effects[..|effects| - 1] == channels;
        }
        ChannelsAddedOf(device, None, c.body.calls[..FirstWhere(c.body.calls, DeviceCallFails)], channels);
      }
    }
  }

  /** One callback of the top-level walkers: its exception, and the effects ProjectCallEffects names. */
  method ProjectStep(project: FahProject, c: Call<Action>) returns (r: Outcome<()>, ghost effects: seq<Effect>)
    requires CallIn(c, TopScope)
    modifies project, project.roomByUid.Values`devices
    ensures TablesOf(project) == ApplyEffects(old(TablesOf(project)), effects)
    ensures RoomsFrom(project)
    ensures ExceptionOf(r) == ProjectCallFailure(c)
    ensures ProjectCallEffects(old(TablesOf(project)), c, effects)
  {
    match c.action {
      case ValueTag =>
        r, effects := OnValue(project, c.attributes, TextOf(c));
      case VarTag =>
        r, effects := OnVar(project, c.attributes, TextOf(c));
      case StringTag =>
        r, effects := OnString(project, c.attributes, TextOf(c));
      case FunctionTag =>
        r, effects := OnFunction(project, c.attributes);
      case FloorTag =>
        r, effects := ElementStep(project, c);
      case DeviceTag =>
        r, effects := ElementStep(project, c);
    }
  }

  /** Each callback that ran added what ProjectCallEffects says, for the tables the callbacks before it left. */
  ghost predicate EachCallEffects(t: Tables, calls: seq<Call<Action>>, perCall: seq<seq<Effect>>) {
    |perCall| <= |calls| &&
    forall j :: 0 <= j < |perCall| ==> ProjectCallEffects(ApplyEffects(t, Concat(perCall[..j])), calls[j], perCall[j])
  }

  /** One more callback: its effects follow the run's so far. */
  lemma EachCallEffectsSnoc(t: Tables, calls: seq<Call<Action>>, perCall: seq<seq<Effect>>, effects: seq<Effect>)
    requires EachCallEffects(t, calls, perCall) && |perCall| < |calls|
    requires ProjectCallEffects(ApplyEffects(t, Concat(perCall)), calls[|perCall|], effects)
    ensures EachCallEffects(t, calls, perCall + [effects])
    ensures Concat(perCall + [effects]) == Concat(perCall) + effects
  {
    var more := perCall + [effects];
    assert more[..|perCall|] == perCall;
    assert forall j :: 0 <= j < |perCall| ==> more[..j] == perCall[..j];
  }

  /**
   * The callbacks of the top-level walkers, in order, until one throws:
   * perCall holds the effects of each callback that ran, each as
   * ProjectCallEffects says for the tables it found.
   */
  method RunProject(project: FahProject, calls: seq<Call<Action>>)
    returns (r: Outcome<()>, ghost log: seq<Effect>, ghost perCall: seq<seq<Effect>>)
    requires CallsIn(calls, TopScope)
    modifies project, project.roomByUid.Values`devices
    ensures TablesOf(project) == ApplyEffects(old(TablesOf(project)), log)
    ensures RoomsFrom(project)
    ensures ExceptionOf(r) == FirstFailure(calls, ProjectCallFails, ProjectCallFailure)
    ensures |perCall| == Ran(calls, ProjectCallFails) && log == Concat(perCall)
    ensures EachCallEffects(old(TablesOf(project)), calls, perCall)
  {
    log := [];
    perCall := [];
    r := Ok(());
    for k := 0 to |calls|
      invariant r.Ok? && k <= FirstWhere(calls, ProjectCallFails)
      invariant |perCall| == k && log == Concat(perCall)
      invariant TablesOf(project) == ApplyEffects(old(TablesOf(project)), log)
      invariant RoomsFrom(project)
      invariant EachCallEffects(old(TablesOf(project)), calls, perCall)
    {
      FirstWhereAt(calls, ProjectCallFails, k);
      var step;
      ghost var effects;
      step, effects := ProjectStep(project, calls[k]);
      EachCallEffectsSnoc(old(TablesOf(project)), calls, perCall, effects);
      ApplyEffectsAppend(old(TablesOf(project)), log, effects);
      perCall := perCall + [effects];
      log := log + effects;
      if step.Throws? {
        return step, log, perCall;
      }
    }
  }

  /** catch (XmlPullParserException | IOException e) { throw new RuntimeException(e); } */
  function Rethrown(r: Outcome<()>): (q: Outcome<()>)
    ensures r.Ok? ==> q == r
    ensures r.Throws? && (r.ex.XmlPullParserException? || r.ex.IOException?) ==> q == Throws(RuntimeException(ExceptionName(r.ex)))
    ensures r.Throws? && !(r.ex.XmlPullParserException? || r.ex.IOException?) ==> q == r
  {
    if r.Throws? && (r.ex.XmlPullParserException? || r.ex.IOException?) then Throws(RuntimeException(ExceptionName(r.ex)))
    else r
  }

  function ExceptionName(e: Exception): string {
    match e
    case XmlPullParserException => "org.xmlpull.v1.XmlPullParserException"
    case IOException(m) => "java.io.IOException: " + m
    case _ => ""
  }

  /** How the project walk ends: the first callback that throws, else the walk's own exception. */
  function WalkOutcome(w: Walked<Action>): (r: Outcome<()>)
    ensures r.Ok? <==> FirstFailure(w.calls, ProjectCallFails, ProjectCallFailure).None? && w.failure.None?
  {
    match FirstFailure(w.calls, ProjectCallFails, ProjectCallFailure)
    case Some(e) => Throws(e)
    case None => if w.failure.Some? then Throws(w.failure.value) else Ok(())
  }

  /** Every callback of the project walk sits in the top-level walkers' scope. */
  lemma ProjectWalkIn(events: seq<Event>)
    ensures CallsIn(Walk(ProjectTags, events, Cursor(0, 0, false), 0).0.calls, TopScope)
  {
    ProjectTagsIn();
    WalkCallsIn(ProjectTags, events, Cursor(0, 0, false), 0, TopScope);
  }

  /** The run's own exception, then the walk's: what WalkOutcome says. */
  lemma WalkOutcomeOf(w: Walked<Action>, r: Outcome<()>)
    requires ExceptionOf(r) == FirstFailure(w.calls, ProjectCallFails, ProjectCallFailure)
    ensures WalkOutcome(w) == if r.Ok? && w.failure.Some? then Throws(w.failure.value) else r
  {
    if r.Ok? {
      assert r.value == ();
    }
  }

  /**
   * parse(xml, fahProject) over the parser's events: the callbacks of the
   * walk run in order until one throws, each adding what ProjectCallEffects
   * says to the project's tables, and a parser error leaves as a
   * RuntimeException.
   */
  method Parse(events: seq<Event>, project: FahProject)
    returns (r: Outcome<()>, ghost log: seq<Effect>, ghost perCall: seq<seq<Effect>>)
    modifies project, project.roomByUid.Values`devices
    ensures TablesOf(project) == ApplyEffects(old(TablesOf(project)), log)
    ensures var w := Walk(ProjectTags, events, Cursor(0, 0, false), 0).0;
      r == Rethrown(WalkOutcome(w))
      && |perCall| == Ran(w.calls, ProjectCallFails) && log == Concat(perCall)
      && EachCallEffects(old(TablesOf(project)), w.calls, perCall)
    ensures r.Throws? ==> !r.ex.XmlPullParserException? && !r.ex.IOException?
  {
    var walker := NewProjectWalker();
    var parser := new PullParser(events);
    var walked := walker.Parse(parser);
    ProjectWalkIn(events);
    r, log, perCall := RunProject(project, walked.calls);
    WalkOutcomeOf(walked, r);
    if r.Ok? && walked.failure.Some? {
      r := Throws(walked.failure.value);
    }
    r := Rethrown(r);
  }

  // ---------------------------------------------------------------------
  // A worked document

  /** <project><strings><string nameId="a">Light</string></strings><definitions><functions><function nameId="a" functionId="7" name="FID_X"/></functions></definitions></project> */
  const ExampleProject: Node :=
    Element("project", [], [
      Element("strings", [], [Element("string", [("nameId", "a")], [TextNode("Light")])]),
      Element("definitions", [], [
        Element("functions", [], [
          Element("function", [("nameId", "a"), ("functionId", "7"), ("name", "FID_X")], [])])])])

  const ExampleStringCall: Call<Action> := Call(StringTag, [("nameId", "a")], TextBody(Ok("Light")))
  const ExampleFunctionCall: Call<Action> :=
    Call(FunctionTag, [("nameId", "a"), ("functionId", "7"), ("name", "FID_X")], NoBody)

  /** The walk over the example document calls the string lambda, then the function lambda, and ends cleanly. */
  lemma ExampleProjectWalk()
    ensures Walk(ProjectTags, Document(ExampleProject), Cursor(0, 0, false), 0).0 ==
      Walked([ExampleStringCall, ExampleFunctionCall], None)
  {
    WalkDocument(ProjectTags, ExampleProject);
    var str := Element("string", [("nameId", "a")], [TextNode("Light")]);
    var fun := Element("function", [("nameId", "a"), ("functionId", "7"), ("name", "FID_X")], []);
    assert Dispatch(StringsTags, str) == Walked([ExampleStringCall], None);
    assert DispatchAll(StringsTags, [str]) == Walked([ExampleStringCall], None);
    assert Dispatch(FunctionsTags, fun) == Walked([ExampleFunctionCall], None);
    assert DispatchAll(FunctionsTags, [fun]) == Walked([ExampleFunctionCall], None);
    var functions := Element("functions", [], [fun]);
    assert Dispatch(DefinitionsTags, functions) == Walked([ExampleFunctionCall], None);
    assert DispatchAll(DefinitionsTags, [functions]) == Walked([ExampleFunctionCall], None);
    var strings := Element("strings", [], [str]);
    var definitions := Element("definitions", [], [functions]);
    assert Dispatch(ProjectContentTags, strings) == Walked([ExampleStringCall], None);
    assert Dispatch(ProjectContentTags, definitions) == Walked([ExampleFunctionCall], None);
    assert DispatchAll(ProjectContentTags, [definitions]) == Walked([ExampleFunctionCall], None);
    assert [strings, definitions][1..] == [definitions];
    assert DispatchAll(ProjectContentTags, [strings, definitions]) == Walked([ExampleStringCall, ExampleFunctionCall], None);
  }

  /** The example's ids parse as hexadecimal numbers, and neither callback throws. */
  lemma ExampleIds()
    ensures ParseNullable(AttributeValue(ExampleStringCall.attributes, "nameId"), 16) == Ok(10)
    ensures ParseNullable(AttributeValue(ExampleFunctionCall.attributes, "nameId"), 16) == Ok(10)
    ensures ParseNullable(AttributeValue(ExampleFunctionCall.attributes, "functionId"), 16) == Ok(7)
    ensures AttributeValue(ExampleFunctionCall.attributes, "name") == Some("FID_X")
    ensures !ProjectCallFails(ExampleStringCall) && !ProjectCallFails(ExampleFunctionCall)
  {
    ExampleAttributes();
    ExampleHexDigits();
  }

  lemma ExampleAttributes()
    ensures AttributeValue(ExampleStringCall.attributes, "nameId") == Some("a")
    ensures AttributeValue(ExampleFunctionCall.attributes, "nameId") == Some("a")
    ensures AttributeValue(ExampleFunctionCall.attributes, "functionId") == Some("7")
    ensures AttributeValue(ExampleFunctionCall.attributes, "name") == Some("FID_X")
  {
    var a := ExampleFunctionCall.attributes;
    assert a[0].0 == "nameId" && a[1].0 == "functionId" && a[2].0 == "name";
    assert "nameId" != "functionId" && "nameId" != "name" && "functionId" != "name";
  }

  lemma ExampleHexDigits()
    ensures ParseInt("a", 16) == Ok(10) && ParseInt("7", 16) == Ok(7)
  {
    assert AllDigits("a", 16) && DigitsValue("a", 16) == 10;
    assert AllDigits("7", 16) && DigitsValue("7", 16) == 7;
  }

  /** Both callbacks of the example run, and neither throws. */
  lemma ExampleRuns()
    ensures Ran([ExampleStringCall, ExampleFunctionCall], ProjectCallFails) == 2
    ensures FirstFailure([ExampleStringCall, ExampleFunctionCall], ProjectCallFails, ProjectCallFailure).None?
  {
    var calls := [ExampleStringCall, ExampleFunctionCall];
    ExampleIds();
    FirstWhereAt(calls, ProjectCallFails, 0);
    FirstWhereAt(calls, ProjectCallFails, 1);
  }

  /**
   * Parsing the example document makes one string callback and one function
   * callback: the string 0xa is indexed with its text, and function 7 is
   * indexed with its FID name and that string as its label.
   */
  lemma ExampleProjectParsed(t: Tables, r: Outcome<()>, log: seq<Effect>, perCall: seq<seq<Effect>>)
    requires var w := Walk(ProjectTags, Document(ExampleProject), Cursor(0, 0, false), 0).0;
      r == Rethrown(WalkOutcome(w))
      && |perCall| == Ran(w.calls, ProjectCallFails) && log == Concat(perCall)
      && EachCallEffects(t, w.calls, perCall)
    ensures r == Ok(())
    ensures ApplyEffects(t, log).ix.strings == t.ix.strings[10 := FahString(10, Some("Light"))]
    ensures ApplyEffects(t, log).ix.functions ==
      t.ix.functions[7 := FahFunction(7, Some("FID_X"), Some(FahString(10, Some("Light"))))]
  {
    ExampleProjectWalk();
    ExampleCallsEffects(t, perCall);
  }

  /** The string callback of the example adds string 0xa with its text. */
  lemma ExampleStringEffects(t: Tables, effects: seq<Effect>)
    requires ProjectCallEffects(t, ExampleStringCall, effects)
    ensures effects == [PartAdded(StringPart(FahString(10, Some("Light"))), None)]
  {
    ExampleIds();
  }

  /** The function callback of the example adds function 7, labelled with string 0xa when t holds it. */
  lemma ExampleFunctionEffects(t: Tables, effects: seq<Effect>)
    requires ProjectCallEffects(t, ExampleFunctionCall, effects)
    ensures effects == [PartAdded(FunctionPart(FahFunction(7, Some("FID_X"),
                                                           if 10 in t.ix.strings then Some(t.ix.strings[10]) else None)), None)]
  {
    ExampleIds();
  }

  /** The two callbacks of the example run without throwing; the string is indexed before the function looks it up. */
  lemma ExampleCallsEffects(t: Tables, perCall: seq<seq<Effect>>)
    requires var calls := [ExampleStringCall, ExampleFunctionCall];
      |perCall| == Ran(calls, ProjectCallFails) && EachCallEffects(t, calls, perCall)
    ensures FirstFailure([ExampleStringCall, ExampleFunctionCall], ProjectCallFails, ProjectCallFailure).None?
    ensures ApplyEffects(t, Concat(perCall)).ix.strings == t.ix.strings[10 := FahString(10, Some("Light"))]
    ensures ApplyEffects(t, Concat(perCall)).ix.functions ==
      t.ix.functions[7 := FahFunction(7, Some("FID_X"), Some(FahString(10, Some("Light"))))]
  {
    ExampleRuns();
    assert perCall[..0] == [];
    ExampleStringEffects(t, perCall[0]);
    assert perCall[..1] == [perCall[0]];
    assert Concat(perCall[..1]) == perCall[0];
    var t1 := ApplyEffects(t, perCall[0]);
    ApplyEffectsOne(t, perCall[0][0]);
    ExampleFunctionEffects(t1, perCall[1]);
    assert perCall[..2] == perCall;
    ApplyEffectsAppend(t, perCall[0], perCall[1]);
    ApplyEffectsOne(t1, perCall[1][0]);
  }
}
