/**
 * The cloud backend's configuration manager (cloud/config.py): default
 * settings for every device, per-device overrides on top of them, a read
 * that merges the two and an update that merges new settings into one or
 * the other.
 *
 * The JSON file the settings are saved to and loaded from is not part of
 * this model. The `threading.Lock` is: `locked` says whether the thread
 * calling in holds it, since a plain lock that its own holder acquires
 * again is never granted.
 */
module CloudConfig {
  import opened Wrappers
  import opened Json

  /** `DEFAULT_CONFIG`. */
  const DefaultConfig: Object := map[
    "difficulty" := JStr("normal"),
    "game_duration_ms" := JInt(60000),
    "mole_up_ms" := JInt(1200),
    "send_events" := JBool(true),
    "set_level" := JNull,
    "set_lives" := JNull,
    "set_pop_duration" := JNull,
    "pause" := JBool(false),
    "resume" := JBool(false),
    "sensor_config" := JObj(map[])]

  /** `DeviceConfig`: the id the configuration is for, and the configuration. */
  datatype DeviceConfig = DeviceConfig(deviceId: string, config: Object)

  /** `ConfigUpdate`: settings for one device, or for the defaults when no id is given. */
  datatype ConfigUpdate = ConfigUpdate(deviceId: Option<string>, config: Object)

  /** Python's truth value of an optional string: present and non-empty. */
  predicate Named(id: Option<string>) {
    id.Some? && id.value != ""
  }

  /** The id a `DeviceConfig` reports: the given id, or "unknown". */
  function NameOf(id: Option<string>): string {
    if Named(id) then id.value else "unknown"
  }

  /** `a.update(b)` on a copy of a: b's keys added, b's values winning. */
  function Overlay(a: Object, b: Object): (r: Object)
    ensures r.Keys == a.Keys + b.Keys
    ensures forall k :: k in r ==> r[k] == if k in b then b[k] else a[k]
  {
    a + b
  }

  /** The configuration a device gets: the defaults, overlaid by its override if it has one. */
  function Resolve(defaults: Object, overrides: map<string, Object>, id: Option<string>): Object {
    if Named(id) && id.value in overrides then Overlay(defaults, overrides[id.value]) else defaults
  }

  /** The defaults and overrides after an update. */
  function Applied(defaults: Object, overrides: map<string, Object>, u: ConfigUpdate): (Object, map<string, Object>) {
    if Named(u.deviceId) then
      var prior := if u.deviceId.value in overrides then overrides[u.deviceId.value] else map[];
      (defaults, overrides[u.deviceId.value := Overlay(prior, u.config)])
    else (Overlay(defaults, u.config), overrides)
  }

  class ConfigManager {
    /** `self.default_config`. */
    var defaultConfig: Object
    /** `self.device_overrides`. */
    var deviceOverrides: map<string, Object>
    /** Whether the calling thread holds `self._lock`. */
    var locked: bool

    /** A first start: the defaults, no overrides, the lock free. */
    constructor ()
      ensures defaultConfig == DefaultConfig && deviceOverrides == map[] && !locked
    {
      defaultConfig := DefaultConfig;
      deviceOverrides := map[];
      locked := false;
    }

    /**
     * `get`: the merged configuration under the id, or "unknown" without
     * one. A caller that already holds the lock never gets an answer (None).
     */
    function Get(deviceId: Option<string>): (r: Option<DeviceConfig>)
      reads this
      ensures r.None? <==> locked
      ensures r.Some? ==> r.value.deviceId == NameOf(deviceId)
      ensures r.Some? ==> (r.value.config.Keys == defaultConfig.Keys
        + (if Named(deviceId) && deviceId.value in deviceOverrides then deviceOverrides[deviceId.value].Keys else {}))
    {
      if locked then None
      else Some(DeviceConfig(NameOf(deviceId), Resolve(defaultConfig, deviceOverrides, deviceId)))
    }

    /**
     * `update` as written: it takes the lock, merges the settings, and then
     * calls `get`, which asks for the same lock again. The merge happens, but
     * the call never returns and the lock stays taken.
     */
    method UpdateAsWritten(u: ConfigUpdate) returns (r: Option<DeviceConfig>)
      requires !locked
      modifies this
      ensures (defaultConfig, deviceOverrides) == Applied(old(defaultConfig), old(deviceOverrides), u)
      ensures r.None? && locked
    {
      locked := true;
      if u.deviceId.Some? && u.deviceId.value != "" {
        var override := if u.deviceId.value in deviceOverrides then deviceOverrides[u.deviceId.value] else map[];
        override := override + u.config;
        deviceOverrides := deviceOverrides[u.deviceId.value := override];
      } else {
        defaultConfig := defaultConfig + u.config;
      }
      r := Get(u.deviceId);
    }

    /**
     * `update` as intended: merge the settings, release the lock, and return
     * what `get` gives for the same id on the new state.
     */
    method Update(u: ConfigUpdate) returns (r: DeviceConfig)
      requires !locked
      modifies this
      ensures (defaultConfig, deviceOverrides) == Applied(old(defaultConfig), old(deviceOverrides), u)
      ensures !locked && Get(u.deviceId) == Some(r)
    {
      locked := true;
      if u.deviceId.Some? && u.deviceId.value != "" {
        var override := if u.deviceId.value in deviceOverrides then deviceOverrides[u.deviceId.value] else map[];
        override := override + u.config;
        deviceOverrides := deviceOverrides[u.deviceId.value := override];
      } else {
        defaultConfig := defaultConfig + u.config;
      }
      locked := false;
      r := Get(u.deviceId).value;
    }
  }

  /** Without an id, or with one that has no override, a device gets the defaults as they are. */
  lemma PlainDefaults(defaults: Object, overrides: map<string, Object>, id: Option<string>)
    requires !Named(id) || id.value !in overrides
    ensures Resolve(defaults, overrides, id) == defaults
  {
  }

  /** With an override, each setting is the override's where it has one and the default's elsewhere. */
  lemma OverrideWins(defaults: Object, overrides: map<string, Object>, id: string, k: string)
    requires id != "" && id in overrides
    ensures var c := Resolve(defaults, overrides, Some(id));
      && (k in c <==> k in defaults || k in overrides[id])
      && (k in overrides[id] ==> c[k] == overrides[id][k])
      && (k in defaults && k !in overrides[id] ==> c[k] == defaults[k])
  {
  }

  /** An update for a device changes that device's configuration by exactly the new settings, and not the defaults. */
  lemma DeviceUpdate(defaults: Object, overrides: map<string, Object>, u: ConfigUpdate)
    requires Named(u.deviceId)
    ensures var (d, o) := Applied(defaults, overrides, u);
      && d == defaults
      && o.Keys == overrides.Keys + {u.deviceId.value}
      && Resolve(d, o, u.deviceId) == Overlay(Resolve(defaults, overrides, u.deviceId), u.config)
  {
    var id := u.deviceId.value;
    var prior := if id in overrides then overrides[id] else map[];
    assert Resolve(defaults, overrides, u.deviceId) == Overlay(defaults, prior);
    OverlayAssoc(defaults, prior, u.config);
  }

  /** Overlaying in two steps is overlaying the combined settings. */
  lemma OverlayAssoc(a: Object, b: Object, c: Object)
    ensures Overlay(a, Overlay(b, c)) == Overlay(Overlay(a, b), c)
  {
  }

  /** An update for a device leaves every other device's configuration as it was. */
  lemma OtherDevicesKept(defaults: Object, overrides: map<string, Object>, u: ConfigUpdate, other: Option<string>)
    requires Named(u.deviceId) && other != u.deviceId
    ensures var (d, o) := Applied(defaults, overrides, u);
      Resolve(d, o, other) == Resolve(defaults, overrides, other)
  {
    if Named(other) {
      assert other.value != u.deviceId.value;
    }
  }

  /**
   * An update without an id changes the defaults and leaves every override
   * in force: a device's setting comes from its override first, then from
   * the update, then from the old defaults.
   */
  lemma DefaultsUpdate(defaults: Object, overrides: map<string, Object>, u: ConfigUpdate, id: Option<string>, k: string)
    requires !Named(u.deviceId)
    ensures var (d, o) := Applied(defaults, overrides, u);
      var own := if Named(id) && id.value in overrides then overrides[id.value] else map[];
      var c := Resolve(d, o, id);
      && o == overrides
      && (k in c <==> k in own || k in u.config || k in defaults)
      && (k in c ==> c[k] == if k in own then own[k] else if k in u.config then u.config[k] else defaults[k])
  {
  }
}
