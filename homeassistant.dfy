/** The Home Assistant side of the core: the state objects the REST API
    returns, the rules that file an entity under a category, choose how its
    history is stored and give it a default priority, and the split of a
    `domain.service` name. The REST calls themselves are not modelled; their
    results are parameters. */
module HomeAssistant {
  import opened Wrappers
  import opened Strings
  import opened Json
  import opened JsNumber

  /** A state object as `/api/states` returns it; missing attributes are an
      empty object. */
  datatype HaState = HaState(entityId: string, state: string, attributes: seq<(string, Json)>)

  /** `entity_id.split('.')[0]` */
  function Domain(entityId: string): string {
    Split(entityId, ".")[0]
  }

  /** The domain is the text before the first `.`, or the whole id when it
      has none. */
  lemma {:induction false} DomainBeforeFirstDot(entityId: string)
    ensures var d := Domain(entityId);
      && StartsWith(entityId, d)
      && '.' !in d
      && (|d| < |entityId| ==> entityId[|d|] == '.')
  {
    var d := Domain(entityId);
    var k := Find(entityId, ".");
    assert d == if k < 0 then entityId else entityId[..k];
    if '.' in d {
      var j :| 0 <= j < |d| && d[j] == '.';
      assert OccursAt(entityId, ".", j) by {
        assert entityId[j..j + 1] == [entityId[j]];
      }
      assert false;
    }
    if k >= 0 {
      assert entityId[k..k + 1] == ".";
    }
  }

  /** An attribute whose value is a string; any other value compares unequal
      to every string, exactly as a missing one does. */
  function StringAttr(attrs: seq<(string, Json)>, key: string): Option<string> {
    match Lookup(attrs, key)
    case Some(JStr(s)) => Some(s)
    case _ => None
  }

  function DeviceClass(attrs: seq<(string, Json)>): Option<string> {
    StringAttr(attrs, "device_class")
  }

  function Unit(attrs: seq<(string, Json)>): Option<string> {
    StringAttr(attrs, "unit_of_measurement")
  }

  predicate IsOneOf(v: Option<string>, options: seq<string>) {
    v.Some? && v.value in options
  }

  const SecurityBinaryClasses: seq<string> :=
    ["door", "window", "motion", "occupancy", "lock", "safety", "tamper", "smoke", "gas", "carbon_monoxide"]
  const ClimateBinaryClasses: seq<string> := ["cold", "heat", "moisture", "humidity"]
  const PowerBinaryClasses: seq<string> := ["battery", "battery_charging", "plug", "power"]

  const BinarySensorCategories: set<string> := {"security", "climate", "energy", "sensors"}

  /** `determineBinarySensorCategory(attrs)`: security classes first, then
      climate, then power classes filed as energy, else `sensors`. */
  function BinarySensorCategory(deviceClass: Option<string>): (c: string)
    ensures c in BinarySensorCategories
    ensures c == "security" <==> IsOneOf(deviceClass, SecurityBinaryClasses)
    ensures c == "climate" <==> IsOneOf(deviceClass, ClimateBinaryClasses)
    ensures c == "energy" <==> IsOneOf(deviceClass, PowerBinaryClasses)
  {
    if IsOneOf(deviceClass, SecurityBinaryClasses) then "security"
    else if IsOneOf(deviceClass, ClimateBinaryClasses) then "climate"
    else if IsOneOf(deviceClass, PowerBinaryClasses) then "energy"
    else "sensors"
  }

  const ClimateSensorClasses: seq<string> := ["temperature", "humidity", "pressure", "atmospheric_pressure"]
  const EnergySensorClasses: seq<string> := ["energy", "power", "power_factor", "voltage", "current", "battery"]
  const EnergyUnits: seq<string> := ["kWh", "W", "Wh"]
  const Celsius := "\U{B0}C"
  const Fahrenheit := "\U{B0}F"

  /** `determineSensorCategory(attrs)`: the device class decides before the
      unit. In the unit test `&&` binds tighter than `||`, so `%` counts only
      together with the class `humidity`. */
  function SensorCategory(deviceClass: Option<string>, unit: Option<string>): string {
    if IsOneOf(deviceClass, ClimateSensorClasses) then "climate"
    else if IsOneOf(deviceClass, EnergySensorClasses) then "energy"
    else if unit == Some("kWh") || unit == Some("W") || unit == Some("Wh") then "energy"
    else if unit == Some(Celsius) || unit == Some(Fahrenheit) || (unit == Some("%") && deviceClass == Some("humidity")) then "climate"
    else "sensors"
  }

  /** A sensor is filed as climate exactly when its class is a climate class
      or its unit is a temperature unit and its class is not an energy
      class; it is filed as energy exactly when its class is an energy class
      or its class is not a climate class and its unit is an energy unit. */
  lemma SensorCategoryIs(deviceClass: Option<string>, unit: Option<string>)
    ensures var c := SensorCategory(deviceClass, unit);
      && c in {"climate", "energy", "sensors"}
      && (c == "climate" <==>
            IsOneOf(deviceClass, ClimateSensorClasses)
            || (!IsOneOf(deviceClass, EnergySensorClasses) && !IsOneOf(unit, EnergyUnits)
                && (unit == Some(Celsius) || unit == Some(Fahrenheit))))
      && (c == "energy" <==>
            !IsOneOf(deviceClass, ClimateSensorClasses)
            && (IsOneOf(deviceClass, EnergySensorClasses) || IsOneOf(unit, EnergyUnits)))
  {
  }

  /** The `%` clause can never fire: `humidity` is a climate class and is
      caught first, so a `%` sensor of any other class is `sensors`. */
  lemma PercentAloneIsSensors(deviceClass: Option<string>)
    requires !IsOneOf(deviceClass, ClimateSensorClasses) && !IsOneOf(deviceClass, EnergySensorClasses)
    ensures SensorCategory(deviceClass, Some("%")) == "sensors"
  {
  }

  /** The fixed part of `categoryMap`; `binary_sensor` and `sensor` depend on
      the attributes. */
  function DomainCategory(d: string): Option<string> {
    match d
    case "climate" => Some("climate")
    case "weather" => Some("climate")
    case "humidifier" => Some("climate")
    case "fan" => Some("climate")
    case "light" => Some("lighting")
    case "switch" => Some("controls")
    case "input_boolean" => Some("controls")
    case "button" => Some("controls")
    case "lock" => Some("security")
    case "alarm_control_panel" => Some("security")
    case "camera" => Some("security")
    case "cover" => Some("controls")
    case "media_player" => Some("media")
    case "vacuum" => Some("appliances")
    case "water_heater" => Some("climate")
    case "device_tracker" => Some("presence")
    case "person" => Some("presence")
    case "automation" => Some("system")
    case "script" => Some("system")
    case "scene" => Some("system")
    case "zone" => Some("system")
    case "input_number" => Some("system")
    case "input_text" => Some("system")
    case "input_select" => Some("system")
    case "input_datetime" => Some("system")
    case "timer" => Some("system")
    case "counter" => Some("system")
    case "group" => Some("system")
    case "sun" => Some("environment")
    case "moon" => Some("environment")
    case _ => None
  }

  const Categories: set<string> := {
    "climate", "lighting", "controls", "security", "sensors", "energy", "media",
    "appliances", "presence", "system", "environment", "other"}

  /** `categorizeEntity(entity)` */
  function CategorizeEntity(e: HaState): (c: string)
    ensures c in Categories
  {
    CategoryFor(Domain(e.entityId), DeviceClass(e.attributes), Unit(e.attributes))
  }

  /** The category of an entity of domain `d` with the given attributes. */
  function CategoryFor(d: string, deviceClass: Option<string>, unit: Option<string>): (c: string)
    ensures c in Categories
  {
    if d == "binary_sensor" then BinarySensorCategory(deviceClass)
    else if d == "sensor" then SensorCategory(deviceClass, unit)
    else if DomainCategory(d).Some? then DomainCategory(d).value
    else "other"
  }

  /** A domain the map does not name is filed as `other`, whatever its
      attributes. */
  lemma UnmappedIsOther(e: HaState)
    requires var d := Domain(e.entityId); d != "binary_sensor" && d != "sensor" && DomainCategory(d) == None
    ensures CategorizeEntity(e) == "other"
  {
  }

  /** `determineStorageStrategy(entity)`: a sensor whose state `parseFloat`
      reads as a number (infinities included) is summed per hour when it
      measures energy and averaged otherwise; climate domains are averaged,
      binary sensors summarised per day, all else snapshotted daily. */
  function StorageStrategy(e: HaState): (r: string)
    ensures r in {"hourly_sum", "hourly_avg", "daily_summary", "daily_snapshot"}
    ensures r == "hourly_sum" <==>
      Domain(e.entityId) == "sensor" && LooksNumeric(e.state)
      && (DeviceClass(e.attributes) == Some("energy") || Unit(e.attributes) == Some("kWh"))
  {
    var d := Domain(e.entityId);
    if d == "sensor" && LooksNumeric(e.state) then
      if DeviceClass(e.attributes) == Some("energy") || Unit(e.attributes) == Some("kWh") then "hourly_sum"
      else "hourly_avg"
    else if d in ["climate", "weather", "humidifier"] then "hourly_avg"
    else if d == "binary_sensor" then "daily_summary"
    else "daily_snapshot"
  }

  /** A sensor whose state is not a number falls through to the daily
      snapshot, even when it measures energy. */
  lemma NonNumericSensorSnapshotted(e: HaState)
    requires Domain(e.entityId) == "sensor" && !LooksNumeric(e.state)
    ensures StorageStrategy(e) == "daily_snapshot"
  {
  }

  /** A sensor reporting a plain whole number is averaged or summed hourly. */
  lemma {:induction false} NumericSensorHourly(e: HaState, n: nat)
    requires Domain(e.entityId) == "sensor" && e.state == NatText(n)
    ensures StorageStrategy(e) in {"hourly_sum", "hourly_avg"}
  {
    NatTextParses(n, []);
    assert NatText(n) + [] == NatText(n);
  }

  /** An `unavailable` sensor is snapshotted daily. */
  lemma UnavailableSensorSnapshotted(e: HaState)
    requires Domain(e.entityId) == "sensor" && e.state == "unavailable"
    ensures StorageStrategy(e) == "daily_snapshot"
  {
    WordIsNaN(e.state);
  }

  const Priorities: set<string> := {"critical", "normal", "low", "ignore"}

  predicate SafetyClass(deviceClass: Option<string>) {
    deviceClass == Some("smoke") || deviceClass == Some("gas") || deviceClass == Some("carbon_monoxide")
  }

  /** `determinePriority(entity, category)`: the checks apply in order —
      security, the safety device classes, climate and energy, system, then
      the helper domains. */
  function DeterminePriority(e: HaState, category: string): (p: string)
    ensures p in Priorities
    ensures category == "security" || SafetyClass(DeviceClass(e.attributes)) ==> p == "critical"
    ensures p == "critical" ==> category == "security" || SafetyClass(DeviceClass(e.attributes))
  {
    PriorityFor(Domain(e.entityId), DeviceClass(e.attributes), category)
  }

  function PriorityFor(d: string, deviceClass: Option<string>, category: string): (p: string)
    ensures p in Priorities
  {
    if category == "security" then "critical"
    else if SafetyClass(deviceClass) then "critical"
    else if category == "climate" || category == "energy" then "normal"
    else if category == "system" then "low"
    else if StartsWith(d, "input_") || d == "automation" || d == "script" then "ignore"
    else "normal"
  }

  /** With the category `categorizeEntity` gives, automations and scripts
      are filed under `system` and so get `low`, never `ignore`. */
  lemma AutomationsAreLow(e: HaState)
    requires Domain(e.entityId) == "automation" || Domain(e.entityId) == "script"
    requires !SafetyClass(DeviceClass(e.attributes))
    ensures CategorizeEntity(e) == "system"
    ensures DeterminePriority(e, CategorizeEntity(e)) == "low"
  {
    SystemDomains(Domain(e.entityId), DeviceClass(e.attributes), Unit(e.attributes));
  }

  lemma SystemDomains(d: string, dc: Option<string>, u: Option<string>)
    requires d == "automation" || d == "script"
    ensures CategoryFor(d, dc, u) == "system"
  {
  }

  /** With the category `categorizeEntity` gives, `ignore` goes exactly to
      the `input_` helper domains that are not filed under `system` (such as
      `input_boolean`), unless they carry a safety device class. */
  lemma {:induction false} IgnoredExactlyHelpers(e: HaState)
    ensures var d := Domain(e.entityId);
      (DeterminePriority(e, CategorizeEntity(e)) == "ignore" <==>
        StartsWith(d, "input_")
        && d !in {"input_number", "input_text", "input_select", "input_datetime"}
        && !SafetyClass(DeviceClass(e.attributes)))
  {
    var d, dc, u := Domain(e.entityId), DeviceClass(e.attributes), Unit(e.attributes);
    HelperPriority(d, dc, u);
  }

  lemma {:induction false} HelperPriority(d: string, dc: Option<string>, u: Option<string>)
    ensures PriorityFor(d, dc, CategoryFor(d, dc, u)) == "ignore" <==>
        StartsWith(d, "input_")
        && d !in {"input_number", "input_text", "input_select", "input_datetime"}
        && !SafetyClass(dc)
  {
    var c := CategoryFor(d, dc, u);
    if StartsWith(d, "input_") {
      InputDomains(d);
      assert DomainCategory(d).Some? ==> c == DomainCategory(d).value;
    } else if d == "automation" || d == "script" {
      assert c == "system";
    }
  }

  /** The only `input_` domains the map names. */
  lemma InputDomains(d: string)
    requires StartsWith(d, "input_")
    ensures d != "binary_sensor" && d != "sensor"
    ensures DomainCategory(d) == None || d in {"input_boolean", "input_number", "input_text", "input_select", "input_datetime"}
  {
    assert d[..6] == "input_";
    assert d[0] == 'i';
  }

  /** An `input_boolean` helper is ignored by default. */
  lemma InputBooleanIgnored(e: HaState)
    requires Domain(e.entityId) == "input_boolean" && !SafetyClass(DeviceClass(e.attributes))
    ensures DeterminePriority(e, CategorizeEntity(e)) == "ignore"
  {
    IgnoredExactlyHelpers(e);
  }

  /** `service.includes('.') ? service.split('.') : ['notify', service]`,
      destructured into its first two parts. */
  function SplitService(service: string): (string, string) {
    if Contains(service, ".") then
      var parts := Split(service, ".");
      assert |parts| >= 2 by {
        var k := Find(service, ".");
        assert parts == [service[..k]] + Split(service[k + 1..], ".");
      }
      (parts[0], parts[1])
    else ("notify", service)
  }

  lemma {:induction false} FindFirstDot(a: string, rest: string)
    requires '.' !in a
    requires rest != [] && rest[0] == '.'
    ensures Find(a + rest, ".") == |a|
  {
    var s := a + rest;
    assert OccursAt(s, ".", |a|) by {
      assert s[|a|..|a| + 1] == [s[|a|]];
    }
    forall j | 0 <= j < |a| ensures !OccursAt(s, ".", j) {
      assert s[j..j + 1] == [a[j]];
    }
    FindIs(s, ".", |a|);
  }

  lemma {:induction false} NoDotNotFound(a: string)
    requires '.' !in a
    ensures Find(a, ".") == -1
  {
    forall j | 0 <= j ensures !OccursAt(a, ".", j) {
      if j + 1 <= |a| {
        assert a[j..j + 1] == [a[j]];
      }
    }
  }

  /** A dotted name splits at its first two dots: `a.b` and `a.b.c` both
      give domain `a` and service `b`. */
  lemma {:induction false} DottedServiceSplit(a: string, b: string, rest: string)
    requires '.' !in a && '.' !in b
    requires rest == [] || rest[0] == '.'
    ensures SplitService(a + "." + b + rest) == (a, b)
  {
    var s := a + "." + b + rest;
    assert s == a + ("." + b + rest);
    FindFirstDot(a, "." + b + rest);
    var tail := s[|a| + 1..];
    assert tail == b + rest;
    if rest == [] {
      assert tail == b;
      NoDotNotFound(b);
      assert Split(tail, ".") == [b];
    } else {
      FindFirstDot(b, rest);
      assert tail[..|b|] == b;
    }
  }

  /** A name without a dot is a service of the `notify` domain. */
  lemma {:induction false} UndottedServiceSplit(service: string)
    requires '.' !in service
    ensures SplitService(service) == ("notify", service)
  {
    NoDotNotFound(service);
  }

  /** The call `sendNotification(service, message, title, data)` makes:
      a service of the split domain, with body `{message, title, data}`. */
  datatype ServiceCall = ServiceCall(domain: string, service: string, data: seq<(string, Json)>)

  function NotifyCall(service: string, message: string, title: string, data: Json): (c: ServiceCall)
    ensures Contains(service, ".") || c.domain == "notify"
  {
    var (domain, name) := SplitService(service);
    ServiceCall(domain, name, [("message", JStr(message)), ("title", JStr(title)), ("data", data)])
  }
}
