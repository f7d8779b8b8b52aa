/**
 * The command router of `handle_mqtt_messages` and the three
 * `update_homematic_*` handlers: an inbound bus message (topic, payload)
 * becomes at most one call on the home-automation session.
 */
module Routing {

  import opened Wrappers
  import opened Topics
  import opened Mapping

  /** The door commands of a Hörmann gate drive. */
  datatype DoorCommand = Close | Open | Stop | PartialOpen

  /** Why a message led to no call; each case is one log line of the source. */
  datatype Dropped =
    | MalformedTopic                   // fewer than five segments: the IndexError is swallowed
    | NotImplemented(category: string) // segment 2 is none of groups, devices, home
    | GroupNotWritable                 // no group with that id, or not a heating group
    | UnparsableSetPoint               // float(value) raised
    | DeviceNotWritable                // no device with that id, or not a gate drive
    | InvalidDoorCommand               // payload is not one of the four door literals
    | HomeTypeNotWritable(typeName: string) // home subtype other than alarm

  /** The one session call a message results in, or none. */
  datatype Command =
    | SetPoint(groupId: string, temperature: real)   // set_point_temperature_async
    | Door(deviceId: string, door: DoorCommand)      // send_door_command_async
    | Zones(internal: bool, external: bool)          // set_security_zones_activation_async
    | NoCall(reason: Dropped)

  /** The session's lookups `search_group_by_id` and `search_device_by_id`. */
  datatype Registry = Registry(groups: map<string, Entity>, devices: map<string, Entity>)

  /** An inbound bus message, its payload already decoded as UTF-8. */
  datatype Message = Message(topic: string, payload: string)

  /** The payload literal the router accepts for each door command. */
  function DoorLiteral(c: DoorCommand): string
  {
    match c
    case Close => "CLOSED"
    case Open => "OPEN"
    case Stop => "STOP"
    case PartialOpen => "PARTIAL_OPEN"
  }

  /** The if-chain of `update_homematic_device`: exact, case-sensitive literals only. */
  function DecodeDoorCommand(value: string): (r: Option<DoorCommand>)
    ensures r.Some? ==> DoorLiteral(r.value) == value
    ensures r.None? ==> forall c :: DoorLiteral(c) != value
  {
    if value == "CLOSED" then Some(Close)
    else if value == "OPEN" then Some(Open)
    else if value == "STOP" then Some(Stop)
    else if value == "PARTIAL_OPEN" then Some(PartialOpen)
    else None
  }

  /** The security-zone pair `(internal, external)` a home alarm payload asks for. */
  function AlarmZones(value: string): (z: (bool, bool))
    ensures z.0 ==> z.1
    ensures z == (true, true) <==> value == AbsenceMode
    ensures z == (false, true) <==> value == PresenceMode
  {
    if value == AbsenceMode then (true, true)
    else if value == PresenceMode then (false, true)
    else (false, false)
  }

  /** `update_homematic_group`: only a heating group takes a set-point. */
  function UpdateGroup(reg: Registry, parseFloat: string -> Option<real>, id: string, value: string)
    : (c: Command)
    ensures c.SetPoint? || c == NoCall(GroupNotWritable) || c == NoCall(UnparsableSetPoint)
    ensures c.SetPoint? <==> id in reg.groups && reg.groups[id].HeatingGroup? && parseFloat(value).Some?
    ensures c.SetPoint? ==> c.groupId == id && parseFloat(value) == Some(c.temperature)
  {
    if id in reg.groups && reg.groups[id].HeatingGroup? then
      match parseFloat(value)
      case Some(t) => SetPoint(id, t)
      case None => NoCall(UnparsableSetPoint)
    else NoCall(GroupNotWritable)
  }

  /** `update_homematic_device`: only a gate drive takes a door command. */
  function UpdateDevice(reg: Registry, id: string, value: string): (c: Command)
    ensures c.Door? || c == NoCall(DeviceNotWritable) || c == NoCall(InvalidDoorCommand)
    ensures c.Door? <==> id in reg.devices && reg.devices[id].HoermannDrivesModule?
                         && DecodeDoorCommand(value).Some?
    ensures c.Door? ==> c.deviceId == id && DoorLiteral(c.door) == value
  {
    if id in reg.devices && reg.devices[id].HoermannDrivesModule? then
      match DecodeDoorCommand(value)
      case Some(door) => Door(id, door)
      case None => NoCall(InvalidDoorCommand)
    else NoCall(DeviceNotWritable)
  }

  /** `update_homematic_home`: only the alarm subtype is writable; the id is not consulted. */
  function UpdateHome(typeName: string, value: string): (c: Command)
    ensures c.Zones? <==> typeName == "alarm"
    ensures c.Zones? ==> (c.internal, c.external) == AlarmZones(value)
    ensures !c.Zones? ==> c == NoCall(HomeTypeNotWritable(typeName))
  {
    if typeName == "alarm" then
      var (internal, external) := AlarmZones(value);
      Zones(internal, external)
    else NoCall(HomeTypeNotWritable(typeName))
  }

  /** The dispatch on segment 2 of the topic, with segment 3 as subtype and segment 4 as id. */
  function Dispatch(reg: Registry, parseFloat: string -> Option<real>,
                    category: string, typeName: string, id: string, value: string): Command
  {
    if category == "groups" then UpdateGroup(reg, parseFloat, id, value)
    else if category == "devices" then UpdateDevice(reg, id, value)
    else if category == "home" then UpdateHome(typeName, value)
    else NoCall(NotImplemented(category))
  }

  /** One message of `handle_mqtt_messages`. */
  function Route(reg: Registry, parseFloat: string -> Option<real>, topic: string, value: string)
    : (c: Command)
    ensures |Split(topic)| < 5 ==> c == NoCall(MalformedTopic)
    ensures c.SetPoint? ==> Split(topic)[2] == "groups" && Split(topic)[4] == c.groupId &&
                            c.groupId in reg.groups && reg.groups[c.groupId].HeatingGroup? &&
                            parseFloat(value) == Some(c.temperature)
    ensures c.Door? ==> Split(topic)[2] == "devices" && Split(topic)[4] == c.deviceId &&
                        c.deviceId in reg.devices && reg.devices[c.deviceId].HoermannDrivesModule? &&
                        DoorLiteral(c.door) == value
    ensures c.Zones? ==> Split(topic)[2] == "home" && Split(topic)[3] == "alarm" &&
                         (c.internal, c.external) == AlarmZones(value)
  {
    var parts := Split(topic);
    if |parts| < 5 then NoCall(MalformedTopic)
    else Dispatch(reg, parseFloat, parts[2], parts[3], parts[4], value)
  }

  /**
   * `handle_mqtt_messages` over a stream of messages: they are handled one
   * after the other, each awaited before the next, and an error in one is
   * logged without ending the loop.
   */
  method HandleMessages(reg: Registry, parseFloat: string -> Option<real>, messages: seq<Message>)
    returns (calls: seq<Command>)
    ensures |calls| == |messages|
    ensures forall i :: 0 <= i < |messages| ==>
      calls[i] == Route(reg, parseFloat, messages[i].topic, messages[i].payload)
  {
    calls := [];
    for i := 0 to |messages|
      invariant |calls| == i
      invariant forall j :: 0 <= j < i ==>
        calls[j] == Route(reg, parseFloat, messages[j].topic, messages[j].payload)
    {
      var message := messages[i];
      calls := calls + [Route(reg, parseFloat, message.topic, message.payload)];
    }
  }

  // ---------------------------------------------------------------------
  // Properties of the router

  /** The four door literals decode to four different commands, and back. */
  lemma DoorLiteralRoundTrip(c: DoorCommand, value: string)
    ensures DecodeDoorCommand(DoorLiteral(c)) == Some(c)
    ensures DecodeDoorCommand(value) == Some(c) <==> value == DoorLiteral(c)
  {
  }

  /** Near misses are rejected: the close literal is `CLOSED`, and case matters. */
  lemma DoorLiteralsAreExact()
    ensures DecodeDoorCommand("CLOSE") == None
    ensures DecodeDoorCommand("open") == None
    ensures DecodeDoorCommand("closed") == None
  {
  }

  /** Publishing a home's alarm state and sending it back as a command restores the zones
      the state stands for; `(true, false)` is published as `OFF` and comes back as both off. */
  lemma AlarmZonesOfState(internal: bool, external: bool)
    ensures AlarmZones(AlarmState(internal, external)) == (internal && external, external)
  {
  }

  /** Deriving the state of encoded zones returns each of the three states unchanged,
      and any other payload as `OFF`. */
  lemma AlarmStateOfZones(value: string)
    ensures var z := AlarmZones(value);
      AlarmState(z.0, z.1) == if IsAlarmState(value) then value else Off
  {
  }

  /** A topic of the five segments `parts` is dispatched on its segments 2, 3 and 4,
      whatever segments follow. */
  lemma {:induction false} RouteSegments(reg: Registry, parseFloat: string -> Option<real>,
                                         parts: seq<string>, value: string)
    requires |parts| >= 1 && Segments(parts)
    ensures |parts| < 5 ==> Route(reg, parseFloat, Join(parts), value) == NoCall(MalformedTopic)
    ensures |parts| >= 5 ==> Route(reg, parseFloat, Join(parts), value)
                             == Dispatch(reg, parseFloat, parts[2], parts[3], parts[4], value)
  {
    SplitJoin(parts);
  }

  /** The home command ignores the id segment: any two ids give the same call. */
  lemma HomeIgnoresId(reg: Registry, parseFloat: string -> Option<real>,
                      p: seq<string>, q: seq<string>, value: string)
    requires |p| >= 5 && |q| >= 5 && Segments(p) && Segments(q)
    requires p[2] == "home" && p[..4] == q[..4]
    ensures Route(reg, parseFloat, Join(p), value) == Route(reg, parseFloat, Join(q), value)
  {
    RouteSegments(reg, parseFloat, p, value);
    RouteSegments(reg, parseFloat, q, value);
    assert q[2] == q[..4][2] && q[3] == q[..4][3];
  }

  /** Group and device commands ignore the subtype segment: only the id selects the target. */
  lemma GroupsAndDevicesIgnoreSubtype(reg: Registry, parseFloat: string -> Option<real>,
                                      p: seq<string>, q: seq<string>, value: string)
    requires |p| >= 5 && |q| >= 5 && Segments(p) && Segments(q)
    requires p[2] == "groups" || p[2] == "devices"
    requires p[2] == q[2] && p[4] == q[4]
    ensures Route(reg, parseFloat, Join(p), value) == Route(reg, parseFloat, Join(q), value)
  {
    RouteSegments(reg, parseFloat, p, value);
    RouteSegments(reg, parseFloat, q, value);
  }

  /** The command topic of a heating group, as subscribed: `cmd/homematicip/groups/heating/<id>/set`. */
  function SetPointTopic(id: string): string
  {
    Join(["cmd", Root, "groups", "heating", id, "set"])
  }

  /** The command topic of a gate drive: `cmd/homematicip/devices/hoermann_drive/<id>/state`. */
  function DoorTopic(id: string): string
  {
    Join(["cmd", Root, "devices", "hoermann_drive", id, "state"])
  }

  /** The command topic of the home alarm: `cmd/homematicip/home/alarm/<id>/state`. */
  function AlarmTopic(id: string): string
  {
    Join(["cmd", Root, "home", "alarm", id, "state"])
  }

  /** The single-level wildcard of a subscription pattern. */
  const Wildcard := "+"

  /**
   * The three subscriptions of `setup_mqtt_client`, the command topics with a
   * wildcard id: `cmd/homematicip/groups/heating/+/set`,
   * `cmd/homematicip/devices/hoermann_drive/+/state` and
   * `cmd/homematicip/home/alarm/+/state` (`CommandPatternsAreLiterals`).
   */
  const CommandPatterns: seq<string> :=
    [SetPointTopic(Wildcard), DoorTopic(Wildcard), AlarmTopic(Wildcard)]

  /**
   * The patterns, read segment by segment, are the three topics subscribed
   * to at start-up: `cmd/homematicip/groups/heating/+/set`,
   * `cmd/homematicip/devices/hoermann_drive/+/state` and
   * `cmd/homematicip/home/alarm/+/state`.  A topic is the join of its own
   * split (`JoinSplit`), so the segments fix each pattern's text.
   */
  lemma CommandPatternsAreLiterals()
    ensures |CommandPatterns| == 3
    ensures Split(CommandPatterns[0]) == ["cmd", "homematicip", "groups", "heating", "+", "set"]
    ensures Split(CommandPatterns[1]) == ["cmd", "homematicip", "devices", "hoermann_drive", "+", "state"]
    ensures Split(CommandPatterns[2]) == ["cmd", "homematicip", "home", "alarm", "+", "state"]
  {
    SplitJoin(["cmd", Root, "groups", "heating", Wildcard, "set"]);
    SplitJoin(["cmd", Root, "devices", "hoermann_drive", Wildcard, "state"]);
    SplitJoin(["cmd", Root, "home", "alarm", Wildcard, "state"]);
  }

  /**
   * Every writable entity is commanded on its own published topic with `cmd/`
   * in front: the set-point of a heating group, the state of a gate drive and
   * the state of the home alarm.
   */
  lemma CommandTopicsMirrorPublishedTopics(e: Entity)
    requires e.HeatingGroup? || e.HoermannDrivesModule? || e.AsyncHome?
    ensures var t := Translate(e).value;
      (e.HeatingGroup? ==> "set" in Keys(t) && SetPointTopic(e.id) == "cmd/" + Topic(t, "set")) &&
      (e.HoermannDrivesModule? ==>
         "state" in Keys(t) && DoorTopic(e.id) == "cmd/" + Topic(t, "state")) &&
      (e.AsyncHome? ==> "state" in Keys(t) && AlarmTopic(e.id) == "cmd/" + Topic(t, "state"))
  {
    var t := Translate(e).value;
    var key := if e.HeatingGroup? then "set" else "state";
    var parts := [Root, t.category, t.subtype, t.id, key];
    assert (["cmd"] + parts)[1..] == parts;
    assert Join(["cmd"] + parts) == "cmd/" + Topic(t, key);
    assert Keys(t)[if e.HeatingGroup? then 1 else 0] == key;
  }

  /** A set-point on a heating group's command topic is exactly one call when the payload
      parses, and none otherwise; any other group gets none. */
  lemma SetPointCommand(reg: Registry, parseFloat: string -> Option<real>, id: string, value: string)
    requires Separator !in id
    ensures var c := Route(reg, parseFloat, SetPointTopic(id), value);
      if id in reg.groups && reg.groups[id].HeatingGroup? then
        (if parseFloat(value).Some? then c == SetPoint(id, parseFloat(value).value)
         else c == NoCall(UnparsableSetPoint))
      else c == NoCall(GroupNotWritable)
  {
    RouteSegments(reg, parseFloat, ["cmd", Root, "groups", "heating", id, "set"], value);
  }

  /** A door literal on a gate drive's command topic becomes that door command. */
  lemma DoorCommandRoundTrip(reg: Registry, parseFloat: string -> Option<real>, id: string,
                             door: DoorCommand)
    requires Separator !in id
    requires id in reg.devices && reg.devices[id].HoermannDrivesModule?
    ensures Route(reg, parseFloat, DoorTopic(id), DoorLiteral(door)) == Door(id, door)
  {
    RouteSegments(reg, parseFloat, ["cmd", Root, "devices", "hoermann_drive", id, "state"],
                  DoorLiteral(door));
  }

  /** Sending a home's published alarm state back on its command topic asks for the
      zones that state stands for, whatever the id. */
  lemma AlarmCommandRoundTrip(reg: Registry, parseFloat: string -> Option<real>, id: string,
                              internal: bool, external: bool)
    requires Separator !in id
    ensures Route(reg, parseFloat, AlarmTopic(id), AlarmState(internal, external))
            == Zones(internal && external, external)
  {
    RouteSegments(reg, parseFloat, ["cmd", Root, "home", "alarm", id, "state"],
                  AlarmState(internal, external));
    AlarmZonesOfState(internal, external);
  }
}
