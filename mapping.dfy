/**
 * The topic mapper of `process_homematic_payload`: an entity snapshot of the
 * home-automation session becomes a topic namespace
 * `homematicip/<category>/<subtype>/<id>` and an ordered list of
 * `(attribute key, value)` pairs, one retained topic per key.
 */
module Mapping {

  import opened Wrappers
  import opened Topics

  /** An attribute value as the session reports it; `Unknown` is Python's `None`. */
  datatype Value = Number(x: real) | Flag(b: bool) | Text(s: string) | Unknown

  /**
   * One constructor per branch of the mapper.  `HeatingThermostat` stands for
   * both HeatingThermostat and HeatingThermostatCompact, `WindowSensor` for
   * ShutterContact, ShutterContactMagnetic, ContactInterface and
   * RotaryHandleSensor; `AsyncHome` is the home with its two security zones.
   * `isinstance` sends a subclass down its ancestor's branch, so such an
   * object is its first handled ancestor's constructor; only an object outside
   * all twelve branches is `Unhandled`.
   */
  datatype Entity =
    | HeatingGroup(id: string, groupLabel: Value, setPointTemperature: Value, actualTemperature: Value,
                   humidity: Value, valvePosition: Value, windowState: Value, controlMode: Value)
    | HeatingThermostat(id: string, lowBat: Value, setPointTemperature: Value,
                        valveActualTemperature: Value, valvePosition: Value)
    | WindowSensor(id: string, lowBat: Value, windowState: Value)
    | WallMountedThermostatPro(id: string, lowBat: Value, setPointTemperature: Value,
                               actualTemperature: Value, humidity: Value)
    | TemperatureHumiditySensorWithoutDisplay(id: string, lowBat: Value, actualTemperature: Value,
                                              humidity: Value, vaporAmount: Value)
    | WeatherSensor(id: string, lowBat: Value, actualTemperature: Value, humidity: Value,
                    illumination: Value, illuminationThresholdSunshine: Value, storm: Value,
                    sunshine: Value, todaySunshineDuration: Value, totalSunshineDuration: Value,
                    windValueType: Value, windSpeed: Value, yesterdaySunshineDuration: Value,
                    vaporAmount: Value)
    | HoermannDrivesModule(id: string, doorState: Value)
    | MotionDetectorIndoor(id: string, lowBat: Value, currentIllumination: Value,
                           illumination: Value, motionDetected: Value)
    | SmokeDetector(id: string, lowBat: Value)
    | AlarmSirenIndoor(id: string, lowBat: Value)
    | AsyncHome(id: string, internalActive: bool, externalActive: bool)
    | LightSensor(id: string, averageIllumination: Value, currentIllumination: Value,
                  highestIllumination: Value, lowestIllumination: Value)
    | Unhandled(typeName: string)

  /** The mapper's output: the namespace of the topic prefix and the data dictionary in order. */
  datatype Translation = Translation(category: string, subtype: string, id: string,
                                     data: seq<(string, Value)>)

  const Root := "homematicip"

  /** The states the home alarm is published as. */
  const AbsenceMode := "ABSENCE_MODE"
  const PresenceMode := "PRESENCE_MODE"
  const Off := "OFF"

  predicate IsAlarmState(s: string)
  {
    s == AbsenceMode || s == PresenceMode || s == Off
  }

  /** The published alarm state of the home, derived from its two security zones. */
  function AlarmState(internalActive: bool, externalActive: bool): (s: string)
    ensures IsAlarmState(s)
    ensures s == AbsenceMode <==> internalActive && externalActive
    ensures s == PresenceMode <==> externalActive && !internalActive
  {
    if internalActive && externalActive then AbsenceMode
    else if externalActive && !internalActive then PresenceMode
    else Off
  }

  /** `homematicip/<category>/<subtype>/<id>` */
  function Prefix(t: Translation): string
  {
    Join([Root, t.category, t.subtype, t.id])
  }

  /** `homematicip/<category>/<subtype>/<id>/<key>` */
  function Topic(t: Translation, key: string): string
  {
    Join([Root, t.category, t.subtype, t.id, key])
  }

  /** The attribute keys of a translation, in order. */
  function Keys(t: Translation): (ks: seq<string>)
    ensures |ks| == |t.data|
    ensures forall i :: 0 <= i < |t.data| ==> ks[i] == t.data[i].0
  {
    seq(|t.data|, i requires 0 <= i < |t.data| => t.data[i].0)
  }

  /**
   * What the bus relies on: a namespace and keys free of the separator, at
   * least one key, and no key twice (each attribute has exactly one topic).
   */
  predicate WellFormed(t: Translation)
  {
    Separator !in t.category && Separator !in t.subtype && |t.data| >= 1 &&
    SuffixList(Keys(t))
  }

  /** No element occurs twice. */
  predicate NoRepeats(ks: seq<string>)
  {
    forall i, j :: 0 <= i < j < |ks| ==> ks[i] != ks[j]
  }

  /**
   * The key table: the ordered attribute keys of each branch's dictionary,
   * the interface the bus consumers rely on.
   */
  const HeatingGroupKeys: seq<string> := ["label", "set", "temperature", "humidity", "valve",
    "window", "mode"]
  const ThermostatKeys: seq<string> := ["low_battery", "set", "temperature", "valve"]
  const WindowKeys: seq<string> := ["low_battery", "state"]
  const WallThermostatKeys: seq<string> := ["low_battery", "set", "temperature", "humidity"]
  const ClimateSensorKeys: seq<string> := ["low_battery", "temperature", "humidity", "vapor_amount"]
  const WeatherKeys: seq<string> := ["low_battery", "temperature", "humidity", "illumination",
    "illumination_threshold_sunshine", "storm", "sunshine", "today_sunshine_duration",
    "total_sunshine_duration", "wind_value_type", "wind_speed", "yesterday_sunshine_duration",
    "vapor_amount"]
  const StateKeys: seq<string> := ["state"]
  const MotionDetectorKeys: seq<string> := ["low_battery", "current_illumination", "illumination",
    "motion_detected"]
  const BatteryKeys: seq<string> := ["low_battery"]
  const LightSensorKeys: seq<string> := ["average", "current", "highest", "lowest"]

  /** The dictionary of one branch: `keys[i]` carries `values[i]`. */
  function Zip(keys: seq<string>, values: seq<Value>): (data: seq<(string, Value)>)
    requires |keys| == |values|
    ensures |data| == |keys|
    ensures forall i :: 0 <= i < |keys| ==> data[i] == (keys[i], values[i])
  {
    seq(|keys|, i requires 0 <= i < |keys| => (keys[i], values[i]))
  }

  /** The if-chain of `process_homematic_payload`: `None` for an unhandled type. */
  function Translate(e: Entity): (r: Option<Translation>)
    ensures r.None? <==> e.Unhandled?
    ensures r.Some? ==> r.value.id == e.id && |r.value.data| >= 1
  {
    match e
    case HeatingGroup(id, groupLabel, setPoint, temperature, humidity, valve, window, mode) =>
      Some(Translation("groups", "heating", id,
        Zip(HeatingGroupKeys, [groupLabel, setPoint, temperature, humidity, valve, window, mode])))
    case HeatingThermostat(id, lowBat, setPoint, valveTemperature, valve) =>
      Some(Translation("devices", "thermostat", id,
        Zip(ThermostatKeys, [lowBat, setPoint, valveTemperature, valve])))
    case WindowSensor(id, lowBat, window) =>
      Some(Translation("devices", "window", id, Zip(WindowKeys, [lowBat, window])))
    case WallMountedThermostatPro(id, lowBat, setPoint, temperature, humidity) =>
      Some(Translation("devices", "wall_thermostat", id,
        Zip(WallThermostatKeys, [lowBat, setPoint, temperature, humidity])))
    case TemperatureHumiditySensorWithoutDisplay(id, lowBat, temperature, humidity, vapor) =>
      Some(Translation("devices", "temperature_humidity_sensor", id,
        Zip(ClimateSensorKeys, [lowBat, temperature, humidity, vapor])))
    case WeatherSensor(id, lowBat, temperature, humidity, illumination, threshold, storm, sunshine,
                       today, total, windType, windSpeed, yesterday, vapor) =>
      Some(Translation("devices", "weather", id,
        Zip(WeatherKeys, [lowBat, temperature, humidity, illumination, threshold, storm,
          sunshine, today, total, windType, windSpeed, yesterday, vapor])))
    case HoermannDrivesModule(id, doorState) =>
      Some(Translation("devices", "hoermann_drive", id, Zip(StateKeys, [doorState])))
    case MotionDetectorIndoor(id, lowBat, current, illumination, motion) =>
      Some(Translation("devices", "motion_detector", id,
        Zip(MotionDetectorKeys, [lowBat, current, illumination, motion])))
    case SmokeDetector(id, lowBat) =>
      Some(Translation("devices", "smoke_detector", id, Zip(BatteryKeys, [lowBat])))
    case AlarmSirenIndoor(id, lowBat) =>
      Some(Translation("devices", "alarm_siren", id, Zip(BatteryKeys, [lowBat])))
    case AsyncHome(id, internalActive, externalActive) =>
      Some(Translation("home", "alarm", id,
        Zip(StateKeys, [Text(AlarmState(internalActive, externalActive))])))
    case LightSensor(id, average, current, highest, lowest) =>
      Some(Translation("devices", "light_sensor", id,
        Zip(LightSensorKeys, [average, current, highest, lowest])))
    case Unhandled(_) => None
  }

  /** The key list each kind publishes under. */
  function KeyTable(e: Entity): seq<string>
  {
    match e
    case HeatingGroup(_, _, _, _, _, _, _, _) => HeatingGroupKeys
    case HeatingThermostat(_, _, _, _, _) => ThermostatKeys
    case WindowSensor(_, _, _) => WindowKeys
    case WallMountedThermostatPro(_, _, _, _, _) => WallThermostatKeys
    case TemperatureHumiditySensorWithoutDisplay(_, _, _, _, _) => ClimateSensorKeys
    case WeatherSensor(_, _, _, _, _, _, _, _, _, _, _, _, _, _) => WeatherKeys
    case HoermannDrivesModule(_, _) => StateKeys
    case MotionDetectorIndoor(_, _, _, _, _) => MotionDetectorKeys
    case SmokeDetector(_, _) => BatteryKeys
    case AlarmSirenIndoor(_, _) => BatteryKeys
    case AsyncHome(_, _, _) => StateKeys
    case LightSensor(_, _, _, _, _) => LightSensorKeys
    case Unhandled(_) => []
  }

  /**
   * The attribute table: the entity attribute each key of `KeyTable(e)`
   * carries, position by position (`set` is the set-point, `temperature` a
   * thermostat's valve temperature, and so on).
   */
  function Attributes(e: Entity): seq<Value>
  {
    if e.HeatingGroup? then
      [e.groupLabel, e.setPointTemperature, e.actualTemperature, e.humidity, e.valvePosition,
       e.windowState, e.controlMode]
    else if e.HeatingThermostat? then
      [e.lowBat, e.setPointTemperature, e.valveActualTemperature, e.valvePosition]
    else if e.WindowSensor? then [e.lowBat, e.windowState]
    else if e.WallMountedThermostatPro? then
      [e.lowBat, e.setPointTemperature, e.actualTemperature, e.humidity]
    else if e.TemperatureHumiditySensorWithoutDisplay? then
      [e.lowBat, e.actualTemperature, e.humidity, e.vaporAmount]
    else if e.WeatherSensor? then
      [e.lowBat, e.actualTemperature, e.humidity, e.illumination, e.illuminationThresholdSunshine,
       e.storm, e.sunshine, e.todaySunshineDuration, e.totalSunshineDuration, e.windValueType,
       e.windSpeed, e.yesterdaySunshineDuration, e.vaporAmount]
    else if e.HoermannDrivesModule? then [e.doorState]
    else if e.MotionDetectorIndoor? then
      [e.lowBat, e.currentIllumination, e.illumination, e.motionDetected]
    else if e.SmokeDetector? || e.AlarmSirenIndoor? then [e.lowBat]
    else if e.AsyncHome? then [Text(AlarmState(e.internalActive, e.externalActive))]
    else if e.LightSensor? then
      [e.averageIllumination, e.currentIllumination, e.highestIllumination, e.lowestIllumination]
    else []
  }

  /** The namespace table: `<category>/<subtype>` of each kind. */
  function Namespace(e: Entity): (string, string)
  {
    match e
    case HeatingGroup(_, _, _, _, _, _, _, _) => ("groups", "heating")
    case HeatingThermostat(_, _, _, _, _) => ("devices", "thermostat")
    case WindowSensor(_, _, _) => ("devices", "window")
    case WallMountedThermostatPro(_, _, _, _, _) => ("devices", "wall_thermostat")
    case TemperatureHumiditySensorWithoutDisplay(_, _, _, _, _) =>
      ("devices", "temperature_humidity_sensor")
    case WeatherSensor(_, _, _, _, _, _, _, _, _, _, _, _, _, _) => ("devices", "weather")
    case HoermannDrivesModule(_, _) => ("devices", "hoermann_drive")
    case MotionDetectorIndoor(_, _, _, _, _) => ("devices", "motion_detector")
    case SmokeDetector(_, _) => ("devices", "smoke_detector")
    case AlarmSirenIndoor(_, _) => ("devices", "alarm_siren")
    case AsyncHome(_, _, _) => ("home", "alarm")
    case LightSensor(_, _, _, _, _) => ("devices", "light_sensor")
    case Unhandled(_) => ("", "")
  }

  /**
   * The mapper publishes every handled kind under its namespace and its own
   * id, with exactly the keys of the key table, in order.
   */
  lemma TranslateAgreesWithTables(e: Entity)
    requires !e.Unhandled?
    ensures var t := Translate(e).value;
      (t.category, t.subtype) == Namespace(e) && t.id == e.id && Keys(t) == KeyTable(e)
    ensures |Attributes(e)| == |KeyTable(e)|
    ensures Translate(e).value.data == Zip(KeyTable(e), Attributes(e))
  {
  }

  /** Each key of an entity's translation carries the attribute the attribute table assigns it. */
  lemma TranslateBindsAttributes(e: Entity, i: nat)
    requires !e.Unhandled? && i < |KeyTable(e)|
    ensures i < |Translate(e).value.data| && i < |Attributes(e)|
    ensures Translate(e).value.data[i] == (KeyTable(e)[i], Attributes(e)[i])
  {
    TranslateAgreesWithTables(e);
  }

  /** Each list of the key table is usable as topic suffixes: no separator, no key twice. */
  predicate SuffixList(ks: seq<string>)
  {
    Segments(ks) && NoRepeats(ks)
  }

  lemma HeatingGroupKeysAreSuffixes()
    ensures SuffixList(HeatingGroupKeys)
  {
  }

  lemma ThermostatKeysAreSuffixes()
    ensures SuffixList(ThermostatKeys)
  {
  }

  lemma WindowKeysAreSuffixes()
    ensures SuffixList(WindowKeys)
  {
  }

  lemma WallThermostatKeysAreSuffixes()
    ensures SuffixList(WallThermostatKeys)
  {
  }

  lemma ClimateSensorKeysAreSuffixes()
    ensures SuffixList(ClimateSensorKeys)
  {
  }

  lemma WeatherKeysAreSuffixes()
    ensures SuffixList(WeatherKeys)
  {
    WeatherKeysAreSegments();
    WeatherKeysDoNotRepeat();
  }

  lemma WeatherKeysAreSegments()
    ensures Segments(WeatherKeys)
  {
  }

  lemma WeatherKeysDoNotRepeat()
    ensures NoRepeats(WeatherKeys)
  {
  }

  lemma StateKeysAreSuffixes()
    ensures SuffixList(StateKeys)
  {
  }

  lemma MotionDetectorKeysAreSuffixes()
    ensures SuffixList(MotionDetectorKeys)
  {
  }

  lemma BatteryKeysAreSuffixes()
    ensures SuffixList(BatteryKeys)
  {
  }

  lemma LightSensorKeysAreSuffixes()
    ensures SuffixList(LightSensorKeys)
  {
  }

  lemma KeyTableSuffixes(e: Entity)
    ensures SuffixList(KeyTable(e))
  {
    match e
    case HeatingGroup(_, _, _, _, _, _, _, _) => HeatingGroupKeysAreSuffixes();
    case HeatingThermostat(_, _, _, _, _) => ThermostatKeysAreSuffixes();
    case WindowSensor(_, _, _) => WindowKeysAreSuffixes();
    case WallMountedThermostatPro(_, _, _, _, _) => WallThermostatKeysAreSuffixes();
    case TemperatureHumiditySensorWithoutDisplay(_, _, _, _, _) => ClimateSensorKeysAreSuffixes();
    case WeatherSensor(_, _, _, _, _, _, _, _, _, _, _, _, _, _) => WeatherKeysAreSuffixes();
    case HoermannDrivesModule(_, _) => StateKeysAreSuffixes();
    case MotionDetectorIndoor(_, _, _, _, _) => MotionDetectorKeysAreSuffixes();
    case SmokeDetector(_, _) => BatteryKeysAreSuffixes();
    case AlarmSirenIndoor(_, _) => BatteryKeysAreSuffixes();
    case AsyncHome(_, _, _) => StateKeysAreSuffixes();
    case LightSensor(_, _, _, _, _) => LightSensorKeysAreSuffixes();
    case Unhandled(_) =>
  }

  /** No namespace of the table holds the separator. */
  lemma NamespaceSegments(e: Entity)
    ensures Separator !in Namespace(e).0 && Separator !in Namespace(e).1
  {
  }

  /** Every translation is well formed: in particular no entity kind publishes a key twice. */
  lemma TranslateWellFormed(e: Entity)
    requires !e.Unhandled?
    ensures WellFormed(Translate(e).value)
  {
    TranslateAgreesWithTables(e);
    KeyTableSuffixes(e);
    NamespaceSegments(e);
  }

  /** The prefix is the f-string `homematicip/<category>/<subtype>/<id>` of the mapper. */
  lemma PrefixAsWritten(t: Translation)
    ensures Prefix(t) == "homematicip/" + t.category + "/" + t.subtype + "/" + t.id
  {
    var parts := [Root, t.category, t.subtype, t.id];
    assert parts[1..] == [t.category, t.subtype, t.id];
    assert parts[1..][1..] == [t.subtype, t.id];
    assert parts[1..][1..][1..] == [t.id];
    var slash := [Separator];
    assert slash == "/";
    assert Join(parts[1..][1..]) == t.subtype + slash + t.id;
    assert Join(parts[1..]) == t.category + slash + (t.subtype + slash + t.id);
    calc {
      Prefix(t);
      Root + slash + (t.category + slash + (t.subtype + slash + t.id));
      { assert t.category + slash + (t.subtype + slash + t.id)
          == t.category + slash + t.subtype + slash + t.id; }
      Root + slash + (t.category + slash + t.subtype + slash + t.id);
      "homematicip/" + t.category + "/" + t.subtype + "/" + t.id;
    }
  }

  /** A topic is the prefix, the separator and the key. */
  lemma TopicExtendsPrefix(t: Translation, key: string)
    ensures Topic(t, key) == Prefix(t) + [Separator] + key
  {
    JoinSnoc([Root, t.category, t.subtype, t.id], key);
    assert [Root, t.category, t.subtype, t.id] + [key] == [Root, t.category, t.subtype, t.id, key];
  }

  /** A published topic splits into exactly its five segments. */
  lemma TopicSegments(t: Translation, key: string)
    requires WellFormed(t) && Separator !in t.id && Separator !in key
    ensures Split(Topic(t, key)) == [Root, t.category, t.subtype, t.id, key]
  {
    SplitJoin([Root, t.category, t.subtype, t.id, key]);
  }

  /**
   * Topics never collide: a topic the mapper publishes names exactly one
   * namespace, one entity id and one attribute key.
   */
  lemma TopicsIdentify(t1: Translation, k1: string, t2: Translation, k2: string)
    requires WellFormed(t1) && Separator !in t1.id && Separator !in k1
    requires WellFormed(t2) && Separator !in t2.id && Separator !in k2
    requires Topic(t1, k1) == Topic(t2, k2)
    ensures t1.category == t2.category && t1.subtype == t2.subtype
    ensures t1.id == t2.id && k1 == k2
  {
    TopicSegments(t1, k1);
    TopicSegments(t2, k2);
  }

  /**
   * The namespace determines the key list: two entities published under the
   * same `<category>/<subtype>` always carry the same ordered attribute keys,
   * so retained topics keep their meaning across entities and restarts.
   */
  lemma NamespaceDeterminesKeys(e1: Entity, e2: Entity)
    requires !e1.Unhandled? && !e2.Unhandled?
    requires Translate(e1).value.category == Translate(e2).value.category
    requires Translate(e1).value.subtype == Translate(e2).value.subtype
    ensures Keys(Translate(e1).value) == Keys(Translate(e2).value)
  {
    TranslateAgreesWithTables(e1);
    TranslateAgreesWithTables(e2);
    assert Namespace(e1) == Namespace(e2);
  }

  /** The home is published as one `state` topic carrying its derived alarm state. */
  lemma HomeTranslation(id: string, internalActive: bool, externalActive: bool)
    ensures var t := Translate(AsyncHome(id, internalActive, externalActive)).value;
      Prefix(t) == "homematicip/home/alarm/" + id && Keys(t) == ["state"] &&
      t.data == [("state", Text(AlarmState(internalActive, externalActive)))]
  {
    PrefixAsWritten(Translate(AsyncHome(id, internalActive, externalActive)).value);
  }
}
