/** The configuration record of the monitor (`config.py`): one `BatteryConfig`
    per battery plus the MQTT, web and monitor settings, built from a nested map
    (`from_dict`), exported as a nested map with the password masked (`to_dict`),
    and the `EG4_DEBUG` rule of `from_env`.

    The record's fields hold whatever the input map held: Python does not check
    the annotated types, and `dict.get` returns the stored value as it is. So every
    setting is a `Value`, the model of a loaded YAML node. */
module Configuration {
  import opened Common

  /** A loaded YAML node. */
  datatype Value =
    | VNull
    | VBool(b: bool)
    | VInt(i: int)
    | VStr(s: string)
    | VList(items: seq<Value>)
    | VMap(m: map<string, Value>)

  /** Python truthiness: `None`, `False`, `0` and empty containers are false. */
  predicate Truthy(v: Value) {
    match v
    case VNull => false
    case VBool(b) => b
    case VInt(i) => i != 0
    case VStr(s) => s != []
    case VList(items) => items != []
    case VMap(m) => m != map[]
  }

  /** The exceptions `from_dict` can raise on a malformed input: iterating over a
      value that is not iterable (`TypeError`), and calling `.get` on a value that
      is not a dictionary (`AttributeError`). */
  datatype ConfigError = TypeError | AttributeError

  /** `BatteryConfig`: where to find one battery and how to talk to it. */
  datatype BatteryConfig = BatteryConfig(name: Value, ip: Value, port: Value, deviceId: Value, protocol: Value)

  const DefaultIp: string := "192.168.130.139"
  const DefaultPort: int := 4196
  const DefaultDeviceId: int := 1
  const DefaultProtocol: string := "eg4"

  /** `BatteryConfig()`, every field at its declared default. */
  const DefaultBattery: BatteryConfig :=
    BatteryConfig(VStr("Battery 1"), VStr(DefaultIp), VInt(DefaultPort), VInt(DefaultDeviceId), VStr(DefaultProtocol))

  /** The name `from_dict` gives an entry of the `batteries` list that has none. */
  const ListEntryName: string := "Battery"

  /** The name `from_dict` gives a legacy `battery` block that has none. */
  const LegacyName: string := "EG4 WallMount 280Ah"

  /** `Config`: the batteries and the settings of the MQTT publisher, the web
      server and the polling loop. */
  datatype Config = Config(
    batteries: seq<BatteryConfig>,
    // MQTT
    mqttBroker: Value,
    mqttPort: Value,
    mqttUsername: Value,
    mqttPassword: Value,
    mqttBaseTopic: Value,
    mqttClientId: Value,
    // Web server
    webEnabled: Value,
    webHost: Value,
    webPort: Value,
    // Monitor
    pollInterval: Value,
    uiEnabled: Value,
    debug: Value)

  /** Every setting at its declared default, and no battery yet: the state
      `from_dict` starts from. */
  const Defaults: Config := Config(
    [],
    VStr("localhost"), VInt(1883), VStr(""), VStr(""), VStr("homeassistant"), VStr(""),
    VBool(true), VStr("0.0.0.0"), VInt(5000),
    VInt(30), VBool(true), VBool(false))

  /** `Config(batteries=...)` with the other settings at their defaults, after
      `__post_init__`: no battery list means the single default battery. */
  function NewConfig(batteries: Option<seq<BatteryConfig>>): (c: Config)
    ensures batteries.None? ==> c.batteries == [DefaultBattery]
    ensures batteries.Some? ==> c.batteries == batteries.value
    ensures c.(batteries := []) == Defaults
  {
    Defaults.(batteries := if batteries.None? then [DefaultBattery] else batteries.value)
  }

  /** `d.get(key, default)`. */
  function Get(m: map<string, Value>, key: string, default: Value): (v: Value)
    ensures key in m ==> v == m[key]
    ensures key !in m ==> v == default
  {
    if key in m then m[key] else default
  }

  /** A value on which `.get` is called: only a dictionary has one. */
  function AsMap(v: Value): (r: Result<map<string, Value>, ConfigError>)
    ensures r.Ok? <==> v.VMap?
    ensures r.Ok? ==> r.value == v.m
    ensures r.Err? ==> r.error == AttributeError
  {
    if v.VMap? then Ok(v.m) else Err(AttributeError)
  }

  /** What `for batt in v` visits: the items of a list, the one-character strings
      of a string, and the keys of a dictionary (strings, so a non-empty dictionary
      fails on the first `.get`); anything else is not iterable. */
  function BatteryItems(v: Value): (r: Result<seq<Value>, ConfigError>)
    ensures v.VList? ==> r == Ok(v.items)
    ensures v.VStr? ==> r.Ok? && |r.value| == |v.s|
    ensures (v.VNull? || v.VBool? || v.VInt?) ==> r == Err(TypeError)
    ensures v.VMap? ==> r == if v.m == map[] then Ok([]) else Err(AttributeError)
  {
    match v
    case VList(items) => Ok(items)
    case VStr(s) => Ok(seq(|s|, i requires 0 <= i < |s| => VStr([s[i]])))
    case VMap(m) => if m == map[] then Ok([]) else Err(AttributeError)
    case _ => Err(TypeError)
  }

  /** `BatteryConfig(name=b.get("name", defaultName), ip=b.get("ip", ...), ...)`. */
  function BuildBattery(entry: Value, defaultName: string): (r: Result<BatteryConfig, ConfigError>)
    ensures r.Ok? <==> entry.VMap?
    ensures r.Err? ==> r.error == AttributeError
  {
    var b :- AsMap(entry);
    Ok(BatteryConfig(
      Get(b, "name", VStr(defaultName)),
      Get(b, "ip", VStr(DefaultIp)),
      Get(b, "port", VInt(DefaultPort)),
      Get(b, "device_id", VInt(DefaultDeviceId)),
      Get(b, "protocol", VStr(DefaultProtocol))))
  }

  /** The batteries built from the entries of a `batteries` list, in order; the
      first entry that is not a dictionary raises. */
  function BuildAll(items: seq<Value>): (r: Result<seq<BatteryConfig>, ConfigError>)
    ensures r.Ok? ==> |r.value| == |items|
  {
    if items == [] then Ok([])
    else
      var init :- BuildAll(items[..|items| - 1]);
      var b :- BuildBattery(items[|items| - 1], ListEntryName);
      Ok(init + [b])
  }

  /** Once a prefix of the entries fails, the whole list fails with the same error. */
  lemma {:induction false} BuildAllFailsFrom(items: seq<Value>, j: nat)
    requires j <= |items|
    requires BuildAll(items[..j]).Err?
    ensures BuildAll(items) == BuildAll(items[..j])
  {
    if j < |items| {
      var p := items[..|items| - 1];
      assert p[..j] == items[..j];
      BuildAllFailsFrom(p, j);
    } else {
      assert items[..j] == items;
    }
  }

  /** The battery list of `from_dict`: a `batteries` key wins over a legacy
      `battery` block, and with neither there is the single default battery. */
  function BatteriesOf(data: map<string, Value>): (r: Result<seq<BatteryConfig>, ConfigError>)
    ensures "batteries" !in data && "battery" !in data ==> r == Ok([DefaultBattery])
    ensures "batteries" !in data && "battery" in data ==>
      (r.Ok? <==> data["battery"].VMap?) && (r.Ok? ==> |r.value| == 1)
    ensures "batteries" in data && r.Ok? ==>
      BatteryItems(data["batteries"]).Ok? && |r.value| == |BatteryItems(data["batteries"]).value|
  {
    if "batteries" in data then
      var items :- BatteryItems(data["batteries"]);
      BuildAll(items)
    else if "battery" in data then
      var b :- BuildBattery(data["battery"], LegacyName);
      Ok([b])
    else
      Ok([DefaultBattery])
  }

  /** The dictionary of one section: empty when the section is absent, and an
      error when it is present but not a dictionary. */
  function Section(data: map<string, Value>, key: string): (r: Result<map<string, Value>, ConfigError>)
    ensures key !in data ==> r == Ok(map[])
    ensures key in data ==> r == AsMap(data[key])
  {
    if key in data then AsMap(data[key]) else Ok(map[])
  }

  /** What `Config.from_dict(data)` returns or raises. */
  function ConfigOf(data: map<string, Value>): (r: Result<Config, ConfigError>)
    ensures BatteriesOf(data).Err? ==> r == Err(BatteriesOf(data).error)
    ensures r.Ok? ==> BatteriesOf(data) == Ok(r.value.batteries)
    ensures r.Ok? && "batteries" !in data ==> |r.value.batteries| == 1
  {
    var batteries :- BatteriesOf(data);
    var mqtt :- Section(data, "mqtt");
    var web :- Section(data, "web");
    var monitor :- Section(data, "monitor");
    var d := Defaults;
    Ok(Config(
      batteries,
      Get(mqtt, "broker", d.mqttBroker),
      Get(mqtt, "port", d.mqttPort),
      Get(mqtt, "username", d.mqttUsername),
      Get(mqtt, "password", d.mqttPassword),
      Get(mqtt, "base_topic", d.mqttBaseTopic),
      Get(mqtt, "client_id", d.mqttClientId),
      Get(web, "enabled", d.webEnabled),
      Get(web, "host", d.webHost),
      Get(web, "port", d.webPort),
      Get(monitor, "interval", d.pollInterval),
      Get(monitor, "ui_enabled", d.uiEnabled),
      Get(monitor, "debug", d.debug)))
  }

  /** `Config.from_dict(data)`: start from the defaults with no battery, append
      the batteries one by one, then override the settings section by section. */
  method FromDict(data: map<string, Value>) returns (r: Result<Config, ConfigError>)
    ensures r == ConfigOf(data)
  {
    var config := Defaults;
    if "batteries" in data {
      var items :- BatteryItems(data["batteries"]);
      var i := 0;
      while i < |items|
        invariant 0 <= i <= |items|
        invariant BuildAll(items[..i]) == Ok(config.batteries)
        invariant config == Defaults.(batteries := config.batteries)
      {
        assert items[..i + 1][..i] == items[..i];
        if BuildBattery(items[i], ListEntryName).Err? {
          BuildAllFailsFrom(items, i + 1);
        }
        var b :- BuildBattery(items[i], ListEntryName);
        config := config.(batteries := config.batteries + [b]);
        i := i + 1;
      }
      assert items[..|items|] == items;
      assert BatteriesOf(data) == Ok(config.batteries);
    } else if "battery" in data {
      var b :- BuildBattery(data["battery"], LegacyName);
      config := config.(batteries := config.batteries + [b]);
      assert config.batteries == [b];
    } else {
      config := config.(batteries := config.batteries + [DefaultBattery]);
      assert config.batteries == [DefaultBattery];
    }

    if "mqtt" in data {
      var mqtt :- AsMap(data["mqtt"]);
      config := config.(mqttBroker := Get(mqtt, "broker", config.mqttBroker));
      config := config.(mqttPort := Get(mqtt, "port", config.mqttPort));
      config := config.(mqttUsername := Get(mqtt, "username", config.mqttUsername));
      config := config.(mqttPassword := Get(mqtt, "password", config.mqttPassword));
      config := config.(mqttBaseTopic := Get(mqtt, "base_topic", config.mqttBaseTopic));
      config := config.(mqttClientId := Get(mqtt, "client_id", config.mqttClientId));
    }
    if "web" in data {
      var web :- AsMap(data["web"]);
      config := config.(webEnabled := Get(web, "enabled", config.webEnabled));
      config := config.(webHost := Get(web, "host", config.webHost));
      config := config.(webPort := Get(web, "port", config.webPort));
    }
    if "monitor" in data {
      var monitor :- AsMap(data["monitor"]);
      config := config.(pollInterval := Get(monitor, "interval", config.pollInterval));
      config := config.(uiEnabled := Get(monitor, "ui_enabled", config.uiEnabled));
      config := config.(debug := Get(monitor, "debug", config.debug));
    }
    r := Ok(config);
  }

  /** The password as `to_dict` reports it: `"***"` when it is set, `""` otherwise. */
  function Mask(password: Value): (v: Value)
    ensures Truthy(password) ==> v == VStr("***")
    ensures !Truthy(password) ==> v == VStr("")
  {
    if Truthy(password) then VStr("***") else VStr("")
  }

  /** The dictionary `to_dict` gives for one battery. */
  function BatteryDict(b: BatteryConfig): (v: Value)
    ensures v.VMap? && v.m.Keys == {"name", "ip", "port", "device_id", "protocol"}
    ensures BuildBattery(v, ListEntryName) == Ok(b) && BuildBattery(v, LegacyName) == Ok(b)
  {
    VMap(map["name" := b.name, "ip" := b.ip, "port" := b.port, "device_id" := b.deviceId,
             "protocol" := b.protocol])
  }

  /** The exported battery list, one dictionary per battery, in order. */
  function BatteryDicts(bs: seq<BatteryConfig>): (vs: seq<Value>)
    ensures |vs| == |bs| && forall i :: 0 <= i < |bs| ==> vs[i] == BatteryDict(bs[i])
  {
    seq(|bs|, i requires 0 <= i < |bs| => BatteryDict(bs[i]))
  }

  /** `Config.to_dict()`. */
  function ToDict(c: Config): (m: map<string, Value>)
    ensures m.Keys == {"batteries", "mqtt", "web", "monitor"}
  {
    map[
      "batteries" := VList(BatteryDicts(c.batteries)),
      "mqtt" := VMap(map[
        "broker" := c.mqttBroker,
        "port" := c.mqttPort,
        "username" := c.mqttUsername,
        "password" := Mask(c.mqttPassword),
        "base_topic" := c.mqttBaseTopic]),
      "web" := VMap(map["enabled" := c.webEnabled, "host" := c.webHost, "port" := c.webPort]),
      "monitor" := VMap(map["interval" := c.pollInterval, "ui_enabled" := c.uiEnabled,
                            "debug" := c.debug])]
  }

  /** The `EG4_DEBUG` rule of `from_env`: the variable, lower-cased, is one of
      `true`, `1` and `yes`; an unset variable reads as empty, so debugging is
      on only when the variable is set, to a value of one, three or four characters. */
  function DebugFromEnv(env: map<string, string>): (on: bool)
    ensures "EG4_DEBUG" !in env ==> !on
    ensures on ==> "EG4_DEBUG" in env && |env["EG4_DEBUG"]| in {1, 3, 4}
  {
    var v := Lower(if "EG4_DEBUG" in env then env["EG4_DEBUG"] else "");
    v == "true" || v == "1" || v == "yes"
  }

  // ---------------------------------------------------------------------------
  // Building the battery list

  /** The battery list builds exactly when every entry is a dictionary, and then it
      has one battery per entry, in entry order. */
  lemma {:induction false} BuildAllPerEntry(items: seq<Value>)
    ensures BuildAll(items).Ok? <==> forall i :: 0 <= i < |items| ==> items[i].VMap?
    ensures BuildAll(items).Ok? ==>
      forall i :: 0 <= i < |items| ==> BuildAll(items).value[i] == BuildBattery(items[i], ListEntryName).value
  {
    if items != [] {
      var p := items[..|items| - 1];
      BuildAllPerEntry(p);
      assert forall i :: 0 <= i < |p| ==> p[i] == items[i];
    }
  }

  /** A `batteries` list yields one battery per entry, in order, each taking the
      entry's keys and the list defaults for the keys it lacks; any `battery` key
      beside it is ignored. */
  lemma BatteriesListWins(data: map<string, Value>, i: nat, legacy: Value)
    requires "batteries" in data && data["batteries"].VList?
    requires ConfigOf(data).Ok?
    requires i < |data["batteries"].items|
    ensures var items := data["batteries"].items;
      var c := ConfigOf(data).value;
      && |c.batteries| == |items|
      && items[i].VMap?
      && var m := items[i].m;
         var b := c.batteries[i];
         && b.name == (if "name" in m then m["name"] else VStr("Battery"))
         && b.ip == (if "ip" in m then m["ip"] else VStr("192.168.130.139"))
         && b.port == (if "port" in m then m["port"] else VInt(4196))
         && b.deviceId == (if "device_id" in m then m["device_id"] else VInt(1))
         && b.protocol == (if "protocol" in m then m["protocol"] else VStr("eg4"))
    ensures ConfigOf(data["battery" := legacy]) == ConfigOf(data)
  {
    BuildAllPerEntry(data["batteries"].items);
  }

  /** Whenever a `batteries` key is present, the legacy `battery` block is
      ignored, whatever either holds. */
  lemma BatteriesKeyIgnoresLegacy(data: map<string, Value>, legacy: Value)
    requires "batteries" in data
    ensures ConfigOf(data["battery" := legacy]) == ConfigOf(data)
  {
  }

  /** Without a `batteries` list, a legacy `battery` block yields exactly one
      battery, named "EG4 WallMount 280Ah" unless the block names it. */
  lemma LegacyBlockGivesOneBattery(data: map<string, Value>)
    requires "batteries" !in data && "battery" in data
    requires ConfigOf(data).Ok?
    ensures data["battery"].VMap?
    ensures var m := data["battery"].m;
      var bs := ConfigOf(data).value.batteries;
      && |bs| == 1
      && bs[0].name == (if "name" in m then m["name"] else VStr("EG4 WallMount 280Ah"))
      && bs[0].ip == (if "ip" in m then m["ip"] else VStr("192.168.130.139"))
      && bs[0].port == (if "port" in m then m["port"] else VInt(4196))
      && bs[0].deviceId == (if "device_id" in m then m["device_id"] else VInt(1))
      && bs[0].protocol == (if "protocol" in m then m["protocol"] else VStr("eg4"))
  {
  }

  /** With neither `batteries` nor `battery`, the result has the single default
      battery, as `Config(batteries=None)` has; the empty input gives exactly the
      default `Config()`. */
  lemma NoBatteryKeysGivesDefault(data: map<string, Value>)
    requires "batteries" !in data && "battery" !in data
    ensures ConfigOf(data).Ok? ==> ConfigOf(data).value.batteries == NewConfig(None).batteries == [DefaultBattery]
    ensures ConfigOf(map[]) == Ok(NewConfig(None))
  {
  }

  // ---------------------------------------------------------------------------
  // Section settings

  /** The twelve section settings, each read from one key of one section. */
  datatype Setting =
    | MqttBroker | MqttPort | MqttUsername | MqttPassword | MqttBaseTopic | MqttClientId
    | WebEnabled | WebHost | WebPort
    | PollInterval | UiEnabled | Debug
  {
    /** The section the setting is read from. */
    function SectionKey(): string {
      match this
      case MqttBroker | MqttPort | MqttUsername | MqttPassword | MqttBaseTopic | MqttClientId => "mqtt"
      case WebEnabled | WebHost | WebPort => "web"
      case PollInterval | UiEnabled | Debug => "monitor"
    }

    /** The key of the setting inside its section. */
    function Key(): string {
      match this
      case MqttBroker => "broker"
      case MqttPort => "port"
      case MqttUsername => "username"
      case MqttPassword => "password"
      case MqttBaseTopic => "base_topic"
      case MqttClientId => "client_id"
      case WebEnabled => "enabled"
      case WebHost => "host"
      case WebPort => "port"
      case PollInterval => "interval"
      case UiEnabled => "ui_enabled"
      case Debug => "debug"
    }

    /** The field of the record that holds the setting. */
    function Of(c: Config): Value {
      match this
      case MqttBroker => c.mqttBroker
      case MqttPort => c.mqttPort
      case MqttUsername => c.mqttUsername
      case MqttPassword => c.mqttPassword
      case MqttBaseTopic => c.mqttBaseTopic
      case MqttClientId => c.mqttClientId
      case WebEnabled => c.webEnabled
      case WebHost => c.webHost
      case WebPort => c.webPort
      case PollInterval => c.pollInterval
      case UiEnabled => c.uiEnabled
      case Debug => c.debug
    }
  }

  /** Every setting is the value under its key in its section when both are
      present, and its default otherwise (the section absent, or the key absent
      from it). */
  lemma SettingsOverrideOrDefault(data: map<string, Value>, s: Setting)
    requires ConfigOf(data).Ok?
    ensures s.SectionKey() in data ==> data[s.SectionKey()].VMap?
    ensures s.Of(ConfigOf(data).value) ==
      if s.SectionKey() in data && s.Key() in data[s.SectionKey()].m then data[s.SectionKey()].m[s.Key()]
      else s.Of(Defaults)
  {
  }

  /** The declared defaults of the settings. */
  lemma DefaultSettings()
    ensures Defaults.mqttBroker == VStr("localhost") && Defaults.mqttPort == VInt(1883)
    ensures Defaults.mqttUsername == VStr("") && Defaults.mqttPassword == VStr("")
    ensures Defaults.mqttBaseTopic == VStr("homeassistant") && Defaults.mqttClientId == VStr("")
    ensures Defaults.webEnabled == VBool(true) && Defaults.webHost == VStr("0.0.0.0") && Defaults.webPort == VInt(5000)
    ensures Defaults.pollInterval == VInt(30) && Defaults.uiEnabled == VBool(true) && Defaults.debug == VBool(false)
  {
  }

  // ---------------------------------------------------------------------------
  // When `from_dict` raises

  /** The inputs whose battery part builds: a `batteries` value that iterates to
      dictionaries only (a list of dictionaries, an empty string or an empty
      dictionary), else a legacy block that is a dictionary, else nothing. */
  predicate BatteriesAccepted(data: map<string, Value>) {
    if "batteries" in data then
      match data["batteries"]
      case VList(items) => forall i :: 0 <= i < |items| ==> items[i].VMap?
      case VStr(s) => s == []
      case VMap(m) => m == map[]
      case _ => false
    else "battery" in data ==> data["battery"].VMap?
  }

  /** `from_dict` succeeds exactly when the battery part is accepted and each
      section that is present is a dictionary. */
  lemma ConfigOfSucceedsIff(data: map<string, Value>)
    ensures ConfigOf(data).Ok? <==>
      && BatteriesAccepted(data)
      && ("mqtt" in data ==> data["mqtt"].VMap?)
      && ("web" in data ==> data["web"].VMap?)
      && ("monitor" in data ==> data["monitor"].VMap?)
  {
    if "batteries" in data {
      var v := data["batteries"];
      if v.VList? {
        BuildAllPerEntry(v.items);
      } else if v.VStr? {
        var items := BatteryItems(v).value;
        BuildAllPerEntry(items);
        if v.s != [] {
          assert !items[0].VMap?;
        }
      }
    }
  }

  /** A `batteries` value that cannot be iterated raises `TypeError`; an entry
      that is not a dictionary raises `AttributeError`. */
  lemma BatteriesErrors(data: map<string, Value>)
    requires "batteries" in data
    ensures data["batteries"].VNull? || data["batteries"].VBool? || data["batteries"].VInt? ==>
      ConfigOf(data) == Err(TypeError)
    ensures data["batteries"].VList? && (exists i :: 0 <= i < |data["batteries"].items| && !data["batteries"].items[i].VMap?) ==>
      ConfigOf(data) == Err(AttributeError)
  {
    var v := data["batteries"];
    if v.VList? {
      BuildAllPerEntry(v.items);
      if BuildAll(v.items).Err? {
        BuildAllError(v.items);
      }
    }
  }

  /** The only error building the list can raise is `AttributeError`. */
  lemma {:induction false} BuildAllError(items: seq<Value>)
    requires BuildAll(items).Err?
    ensures BuildAll(items) == Err(AttributeError)
  {
    if items != [] {
      var p := items[..|items| - 1];
      if BuildAll(p).Err? {
        BuildAllError(p);
      }
    }
  }

  // ---------------------------------------------------------------------------
  // Export

  /** The export never holds the password itself: it reports `"***"` exactly when
      a password is set, `""` otherwise. */
  lemma ExportMasksPassword(c: Config)
    ensures "password" in ToDict(c)["mqtt"].m
    ensures var p := ToDict(c)["mqtt"].m["password"];
      (p == VStr("***") <==> Truthy(c.mqttPassword)) && (p == VStr("") <==> !Truthy(c.mqttPassword))
    ensures c.mqttPassword.VStr? ==>
      ToDict(c)["mqtt"].m["password"] == if c.mqttPassword.s != [] then VStr("***") else VStr("")
  {
  }

  /** Building from the exported battery dictionaries gives the batteries back. */
  lemma {:induction false} BuildAllOfExport(bs: seq<BatteryConfig>)
    ensures BuildAll(BatteryDicts(bs)) == Ok(bs)
  {
    var items := BatteryDicts(bs);
    if bs != [] {
      var p := bs[..|bs| - 1];
      BuildAllOfExport(p);
      assert items[..|items| - 1] == BatteryDicts(p);
      assert bs == p + [bs[|bs| - 1]];
    }
  }

  /** The exported battery list loads back as the batteries. */
  lemma ExportBatteries(c: Config)
    ensures BatteriesOf(ToDict(c)) == Ok(c.batteries)
  {
    BuildAllOfExport(c.batteries);
    assert BatteryItems(ToDict(c)["batteries"]) == Ok(BatteryDicts(c.batteries));
  }

  /** Loading the export gives the record back, except that a set password comes
      back as `"***"` (an unset one as `""`) and the MQTT client id, which the
      export leaves out, comes back as its default `""`. */
  lemma ExportRoundTrip(c: Config)
    ensures ConfigOf(ToDict(c)) == Ok(c.(mqttPassword := Mask(c.mqttPassword), mqttClientId := VStr("")))
  {
    var d := ToDict(c);
    ExportBatteries(c);
    var mqtt := d["mqtt"].m;
    assert Section(d, "mqtt") == Ok(mqtt);
    assert Section(d, "web") == Ok(d["web"].m);
    assert Section(d, "monitor") == Ok(d["monitor"].m);
    assert "client_id" !in mqtt;
    assert Get(mqtt, "password", Defaults.mqttPassword) == Mask(c.mqttPassword);
  }

  /** A record whose password is unset and whose client id is the default survives
      the export unchanged. */
  lemma ExportRoundTripExact(c: Config)
    requires c.mqttPassword == VStr("") && c.mqttClientId == VStr("")
    ensures ConfigOf(ToDict(c)) == Ok(c)
  {
    ExportRoundTrip(c);
  }

  // ---------------------------------------------------------------------------
  // EG4_DEBUG

  /** An unset or empty variable leaves debugging off, and only the accepted
      spellings, in any letter case, turn it on. */
  lemma DebugSpellings()
    ensures !DebugFromEnv(map[])
    ensures !DebugFromEnv(map["EG4_DEBUG" := ""])
    ensures DebugFromEnv(map["EG4_DEBUG" := "1"])
    ensures DebugFromEnv(map["EG4_DEBUG" := "true"])
    ensures DebugFromEnv(map["EG4_DEBUG" := "TRUE"])
    ensures DebugFromEnv(map["EG4_DEBUG" := "Yes"])
    ensures !DebugFromEnv(map["EG4_DEBUG" := "on"])
    ensures !DebugFromEnv(map["EG4_DEBUG" := "0"])
  {
    assert Lower("1") == "1";
    assert Lower("true") == "true";
    assert Lower("TRUE") == "true";
    assert Lower("Yes") == "yes";
    assert Lower("on") == "on";
    assert Lower("0") == "0";
  }

  /** The rule ignores case: lower-casing the variable first changes nothing. */
  lemma DebugIgnoresCase(env: map<string, string>)
    requires "EG4_DEBUG" in env
    ensures DebugFromEnv(env) == DebugFromEnv(env["EG4_DEBUG" := Lower(env["EG4_DEBUG"])])
  {
    LowerIdempotent(env["EG4_DEBUG"]);
  }
}
