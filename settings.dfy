/** The thermostat's persisted settings record, the clamping rules its setters
    apply, and the layout of the record in the "thermostat" flash namespace. */
module Settings {
  import opened Timing

  /** A typed entry of the flash namespace (`putFloat`, `putString`, `putUInt`, `putBool`). */
  datatype Value = FloatVal(f: real) | StringVal(s: string) | UIntVal(u: U32) | BoolVal(b: bool)

  type Flash = map<Key, Value>

  /** The fields `DataManager` reads and writes. */
  datatype ThermostatSettings = ThermostatSettings(
    targetTemp: real,
    mode: string,
    tempOffset: real,
    hysteresis: real,
    minTemp: real,
    maxTemp: real,
    ecoTemp: real,
    epdRefreshRate: U32,
    tempChangeThreshold: real,
    humidityChangeThreshold: real,
    timezone: string,
    languageCode: string)

  /** Struct defaults of the fields whose initialisers are not part of this model. */
  datatype ExtraDefaults = ExtraDefaults(
    ecoTemp: real,
    epdRefreshRate: U32,
    tempChangeThreshold: real,
    humidityChangeThreshold: real,
    timezone: string,
    languageCode: string)

  const DEFAULT_TARGET_TEMP: real := 20.5
  const DEFAULT_MODE: string := "off"
  const DEFAULT_TEMP_OFFSET: real := 0.0
  const DEFAULT_HYSTERESIS: real := 0.5
  const DEFAULT_MIN_TEMP: real := 10.0
  const DEFAULT_MAX_TEMP: real := 35.0

  /** Hard limits used by `setMinTemp` and `setMaxTemp`. */
  const MIN_TEMP_LIMIT: real := 0.0
  const MAX_TEMP_LIMIT: real := 50.0

  /** The keys of the "thermostat" namespace. */
  datatype Key =
    | Initialized | TargetTemp | Mode | TempOffset | Hysteresis | MinTemp | MaxTemp | EcoTemp
    | EpdRefreshRate | TempChangeThreshold | HumidityChangeThreshold | Timezone | LanguageCode
  {
    /** The key string the firmware passes to `Preferences`. */
    function Name(): string
    {
      match this
      case Initialized => "initialized"
      case TargetTemp => "targetTemp"
      case Mode => "mode"
      case TempOffset => "tempOffset"
      case Hysteresis => "hysteresis"
      case MinTemp => "minTemp"
      case MaxTemp => "maxTemp"
      case EcoTemp => "ecoTemp"
      case EpdRefreshRate => "epdRefreshRate"
      case TempChangeThreshold => "tempChangeThreshold"
      case HumidityChangeThreshold => "humidityChangeThreshold"
      case Timezone => "timezone"
      case LanguageCode => "languageCode"
    }
  }

  /** Distinct keys name distinct `Preferences` entries, so a map over `Key`
      stands for the namespace. */
  lemma KeyNamesDistinct(a: Key, b: Key)
    requires a != b
    ensures a.Name() != b.Name()
  {
  }

  /** The record `ThermostatSettings()` constructs. */
  function Defaults(x: ExtraDefaults): (s: ThermostatSettings)
    ensures Bounded(s) && IsValidMode(s.mode) && s.mode == "off"
    ensures s.ecoTemp == x.ecoTemp && s.timezone == x.timezone && s.languageCode == x.languageCode
  {
    ThermostatSettings(DEFAULT_TARGET_TEMP, DEFAULT_MODE, DEFAULT_TEMP_OFFSET, DEFAULT_HYSTERESIS,
                       DEFAULT_MIN_TEMP, DEFAULT_MAX_TEMP, x.ecoTemp, x.epdRefreshRate,
                       x.tempChangeThreshold, x.humidityChangeThreshold, x.timezone, x.languageCode)
  }

  /** Arduino's `constrain(x, lo, hi)`: `x < lo ? lo : (x > hi ? hi : x)`. */
  function Constrain(x: real, lo: real, hi: real): (r: real)
    ensures lo <= hi ==> lo <= r <= hi
    ensures lo <= x <= hi ==> r == x
    ensures r == x || r == lo || r == hi
    ensures x < lo ==> r == lo
  {
    if x < lo then lo else if x > hi then hi else x
  }

  /** The ordering the setters keep: `0 <= min <= target <= max <= 50`. */
  predicate Bounded(s: ThermostatSettings)
  {
    MIN_TEMP_LIMIT <= s.minTemp <= s.maxTemp <= MAX_TEMP_LIMIT && s.minTemp <= s.targetTemp <= s.maxTemp
  }

  /** The three modes `setMode` accepts. */
  predicate IsValidMode(m: string)
  {
    m == "off" || m == "eco" || m == "on"
  }

  /** Effect of `setTargetTemp(t)` on the record. */
  function WithTargetTemp(s: ThermostatSettings, t: real): (r: ThermostatSettings)
    ensures r == s.(targetTemp := r.targetTemp)
    ensures s.minTemp <= s.maxTemp ==> s.minTemp <= r.targetTemp <= s.maxTemp
    ensures s.minTemp <= t <= s.maxTemp ==> r.targetTemp == t
    ensures Bounded(s) ==> Bounded(r)
  {
    s.(targetTemp := Constrain(t, s.minTemp, s.maxTemp))
  }

  /** Effect of `setEcoTemp(t)` on the record. */
  function WithEcoTemp(s: ThermostatSettings, t: real): (r: ThermostatSettings)
    ensures r == s.(ecoTemp := r.ecoTemp)
    ensures s.minTemp <= s.maxTemp ==> s.minTemp <= r.ecoTemp <= s.maxTemp
    ensures s.minTemp <= t <= s.maxTemp ==> r.ecoTemp == t
    ensures Bounded(s) ==> Bounded(r)
  {
    s.(ecoTemp := Constrain(t, s.minTemp, s.maxTemp))
  }

  /** Effect of `setMaxTemp(t)`: clamp to `[minTemp, 50]`, then pull `targetTemp`
      down to the new maximum if it lies above it; `ecoTemp` is not touched. */
  function WithMaxTemp(s: ThermostatSettings, t: real): (r: ThermostatSettings)
    ensures r == s.(maxTemp := r.maxTemp, targetTemp := r.targetTemp)
    ensures s.minTemp <= MAX_TEMP_LIMIT ==> s.minTemp <= r.maxTemp <= MAX_TEMP_LIMIT
    ensures s.minTemp <= t <= MAX_TEMP_LIMIT ==> r.maxTemp == t
    ensures r.targetTemp <= r.maxTemp && r.targetTemp <= s.targetTemp
    ensures r.targetTemp == s.targetTemp || r.targetTemp == r.maxTemp
    ensures s.targetTemp <= r.maxTemp ==> r.targetTemp == s.targetTemp
    ensures Bounded(s) ==> Bounded(r)
  {
    var m := Constrain(t, s.minTemp, MAX_TEMP_LIMIT);
    s.(maxTemp := m, targetTemp := if s.targetTemp > m then m else s.targetTemp)
  }

  /** Effect of `setMinTemp(t)`: clamp to `[0, maxTemp]`, then raise `targetTemp`
      to the new minimum if it lies below it; `ecoTemp` is not touched. */
  function WithMinTemp(s: ThermostatSettings, t: real): (r: ThermostatSettings)
    ensures r == s.(minTemp := r.minTemp, targetTemp := r.targetTemp)
    ensures MIN_TEMP_LIMIT <= s.maxTemp ==> MIN_TEMP_LIMIT <= r.minTemp <= s.maxTemp
    ensures MIN_TEMP_LIMIT <= t <= s.maxTemp ==> r.minTemp == t
    ensures r.targetTemp >= r.minTemp && r.targetTemp >= s.targetTemp
    ensures r.targetTemp == s.targetTemp || r.targetTemp == r.minTemp
    ensures s.targetTemp >= r.minTemp ==> r.targetTemp == s.targetTemp
    ensures Bounded(s) ==> Bounded(r)
  {
    var m := Constrain(t, MIN_TEMP_LIMIT, s.maxTemp);
    s.(minTemp := m, targetTemp := if s.targetTemp < m then m else s.targetTemp)
  }

  /** The code does not drag `ecoTemp` along with the bounds: raising the
      minimum above the eco setpoint leaves the eco setpoint out of range. */
  lemma EcoTempNotDraggedByMinTemp(x: ExtraDefaults)
    requires x.ecoTemp == 16.0
    ensures var r := WithMinTemp(Defaults(x), 18.0);
            Bounded(r) && r.ecoTemp == 16.0 && r.ecoTemp < r.minTemp
  {
  }

  /** The setters `updateSettings` runs before `setMode` (the mode check can
      restart the device between the two halves). */
  function ApplyBounds(s: ThermostatSettings, n: ThermostatSettings): (r: ThermostatSettings)
    ensures r.mode == s.mode && r.hysteresis == s.hysteresis && r.tempOffset == s.tempOffset
    ensures r.timezone == s.timezone && r.languageCode == s.languageCode
    ensures r.epdRefreshRate == s.epdRefreshRate
    ensures r.minTemp <= r.maxTemp ==> r.minTemp <= r.targetTemp <= r.maxTemp && r.minTemp <= r.ecoTemp <= r.maxTemp
    ensures Bounded(s) ==> Bounded(r) && r.minTemp <= r.ecoTemp <= r.maxTemp
  {
    WithEcoTemp(WithTargetTemp(WithMaxTemp(WithMinTemp(s, n.minTemp), n.maxTemp), n.targetTemp), n.ecoTemp)
  }

  /** The setters `updateSettings` runs after `setMode`: offset, thresholds,
      refresh rate, then timezone and language code, each only if accepted. */
  function ApplyTuning(s: ThermostatSettings, n: ThermostatSettings): (r: ThermostatSettings)
    ensures r.targetTemp == s.targetTemp && r.minTemp == s.minTemp && r.maxTemp == s.maxTemp
    ensures r.ecoTemp == s.ecoTemp && r.mode == s.mode && r.hysteresis == s.hysteresis
    ensures r.tempOffset == n.tempOffset && r.epdRefreshRate == n.epdRefreshRate
    ensures r.tempChangeThreshold == n.tempChangeThreshold && r.humidityChangeThreshold == n.humidityChangeThreshold
    ensures r.timezone == (if |n.timezone| >= 1 then n.timezone else s.timezone)
    ensures r.languageCode == (if |n.languageCode| == 2 then n.languageCode else s.languageCode)
  {
    s.(tempOffset := n.tempOffset,
       tempChangeThreshold := n.tempChangeThreshold,
       humidityChangeThreshold := n.humidityChangeThreshold,
       epdRefreshRate := n.epdRefreshRate,
       timezone := if |n.timezone| >= 1 then n.timezone else s.timezone,
       languageCode := if |n.languageCode| == 2 then n.languageCode else s.languageCode)
  }

  /** Effect of `updateSettings(n)` when `n.mode` is valid: setters in the fixed
      order min, max, target, eco, mode, offset, thresholds, refresh rate,
      timezone, language. `hysteresis` is never written. */
  function ApplyUpdate(s: ThermostatSettings, n: ThermostatSettings): (r: ThermostatSettings)
    requires IsValidMode(n.mode)
    ensures r.hysteresis == s.hysteresis
    ensures r.mode == n.mode && r.tempOffset == n.tempOffset && r.epdRefreshRate == n.epdRefreshRate
    ensures r.tempChangeThreshold == n.tempChangeThreshold && r.humidityChangeThreshold == n.humidityChangeThreshold
    ensures r.timezone == (if |n.timezone| >= 1 then n.timezone else s.timezone)
    ensures r.languageCode == (if |n.languageCode| == 2 then n.languageCode else s.languageCode)
    ensures Bounded(s) ==> Bounded(r) && r.minTemp <= r.ecoTemp <= r.maxTemp
    // a candidate whose bounds fit inside the old maximum and the hard limits is taken as is
    ensures MIN_TEMP_LIMIT <= n.minTemp <= s.maxTemp && n.minTemp <= n.maxTemp <= MAX_TEMP_LIMIT
            ==> r.minTemp == n.minTemp && r.maxTemp == n.maxTemp
                && (n.minTemp <= n.targetTemp <= n.maxTemp ==> r.targetTemp == n.targetTemp)
                && (n.minTemp <= n.ecoTemp <= n.maxTemp ==> r.ecoTemp == n.ecoTemp)
    // min is applied before max, so a minimum above the OLD maximum is cut down to it
    ensures MIN_TEMP_LIMIT <= s.maxTemp < n.minTemp ==> r.minTemp == s.maxTemp
  {
    ApplyTuning(ApplyBounds(s, n).(mode := n.mode), n)
  }

  /** The setpoint the device is working to: `ecoTemp` in eco mode, otherwise
      `targetTemp` (reported over MQTT and shown on the display). */
  function ActiveTarget(s: ThermostatSettings): (t: real)
    ensures s.mode == "eco" ==> t == s.ecoTemp
    ensures s.mode != "eco" ==> t == s.targetTemp
    ensures Bounded(s) && s.minTemp <= s.ecoTemp <= s.maxTemp ==> s.minTemp <= t <= s.maxTemp
  {
    if s.mode == "eco" then s.ecoTemp else s.targetTemp
  }

  // ---------------------------------------------------------------------------
  // Flash layout
  // ---------------------------------------------------------------------------

  /** The typed value `saveAllSettings` writes under settings key `k`. */
  function Entry(s: ThermostatSettings, k: Key): Value
    requires k != Initialized
  {
    match k
    case TargetTemp => FloatVal(s.targetTemp)
    case Mode => StringVal(s.mode)
    case TempOffset => FloatVal(s.tempOffset)
    case Hysteresis => FloatVal(s.hysteresis)
    case MinTemp => FloatVal(s.minTemp)
    case MaxTemp => FloatVal(s.maxTemp)
    case EcoTemp => FloatVal(s.ecoTemp)
    case EpdRefreshRate => UIntVal(s.epdRefreshRate)
    case TempChangeThreshold => FloatVal(s.tempChangeThreshold)
    case HumidityChangeThreshold => FloatVal(s.humidityChangeThreshold)
    case Timezone => StringVal(s.timezone)
    case LanguageCode => StringVal(s.languageCode)
  }

  /** The settings keys in the order `saveAllSettings` writes them. */
  const SETTINGS_KEYS: seq<Key> :=
    [TargetTemp, Mode, TempOffset, Hysteresis, MinTemp, MaxTemp, EcoTemp,
     EpdRefreshRate, TempChangeThreshold, HumidityChangeThreshold, Timezone, LanguageCode]

  /** One `put` per key of `ks`, in order, each storing the field of `s` it names. */
  function Write(m: Flash, s: ThermostatSettings, ks: seq<Key>): (r: Flash)
    requires Initialized !in ks
    ensures Initialized in m ==> Initialized in r && r[Initialized] == m[Initialized]
    decreases |ks|
  {
    if ks == [] then m
    else
      var k := ks[|ks| - 1];
      Write(m, s, ks[..|ks| - 1])[k := Entry(s, k)]
  }

  /** After a run of writes the namespace holds the record's value under every
      key written and its old value under every other key. */
  lemma {:induction false} WriteSpec(m: Flash, s: ThermostatSettings, ks: seq<Key>)
    requires Initialized !in ks
    ensures Write(m, s, ks).Keys == m.Keys + (set k | k in ks)
    ensures forall k :: k in ks ==> Write(m, s, ks)[k] == Entry(s, k)
    ensures forall k :: k in m && k !in ks ==> Write(m, s, ks)[k] == m[k]
    decreases |ks|
  {
    if ks != [] {
      WriteSpec(m, s, ks[..|ks| - 1]);
    }
  }

  /** The value a run of writes leaves under one of its keys. */
  lemma WriteAt(m: Flash, s: ThermostatSettings, ks: seq<Key>, k: Key)
    requires Initialized !in ks && k in ks
    ensures k in Write(m, s, ks) && Write(m, s, ks)[k] == Entry(s, k)
  {
    WriteSpec(m, s, ks);
  }

  /** Writing one more key after a run of writes. */
  lemma {:induction false} WriteLast(m: Flash, s: ThermostatSettings, ks: seq<Key>, k: Key)
    requires Initialized !in ks && k != Initialized
    ensures Write(m, s, ks + [k]) == Write(m, s, ks)[k := Entry(s, k)]
  {
    assert (ks + [k])[..|ks|] == ks;
  }

  /** Two runs of writes of the same record are one run. */
  lemma {:induction false} WriteAppend(m: Flash, s: ThermostatSettings, a: seq<Key>, b: seq<Key>)
    requires Initialized !in a && Initialized !in b
    ensures Write(m, s, a + b) == Write(Write(m, s, a), s, b)
    decreases |b|
  {
    if b == [] {
      assert a + b == a;
    } else {
      var c := b[..|b| - 1];
      assert (a + b)[..|a + b| - 1] == a + c;
      WriteAppend(m, s, a, c);
    }
  }

  /** Only the fields a run writes matter to it. */
  lemma {:induction false} WriteAgree(m: Flash, s1: ThermostatSettings, s2: ThermostatSettings, ks: seq<Key>)
    requires Initialized !in ks
    requires forall k :: k in ks ==> Entry(s1, k) == Entry(s2, k)
    ensures Write(m, s1, ks) == Write(m, s2, ks)
    decreases |ks|
  {
    if ks != [] {
      WriteAgree(m, s1, s2, ks[..|ks| - 1]);
    }
  }

  /** `getFloat(k, d)`: the stored float, or `d` when the key is absent or holds another type. */
  function GetFloat(m: Flash, k: Key, d: real): real
  {
    if k in m && m[k].FloatVal? then m[k].f else d
  }

  function GetString(m: Flash, k: Key, d: string): string
  {
    if k in m && m[k].StringVal? then m[k].s else d
  }

  function GetUInt(m: Flash, k: Key, d: U32): U32
  {
    if k in m && m[k].UIntVal? then m[k].u else d
  }

  /** The load branch of `begin`: every field read with its current value as fallback. */
  function Load(m: Flash, fb: ThermostatSettings): (r: ThermostatSettings)
    ensures m == map[] ==> r == fb
    ensures Mode in m && m[Mode].StringVal? ==> r.mode == m[Mode].s
    ensures Mode !in m ==> r.mode == fb.mode
    ensures EpdRefreshRate in m && !m[EpdRefreshRate].UIntVal? ==> r.epdRefreshRate == fb.epdRefreshRate
  {
    ThermostatSettings(
      GetFloat(m, TargetTemp, fb.targetTemp),
      GetString(m, Mode, fb.mode),
      GetFloat(m, TempOffset, fb.tempOffset),
      GetFloat(m, Hysteresis, fb.hysteresis),
      GetFloat(m, MinTemp, fb.minTemp),
      GetFloat(m, MaxTemp, fb.maxTemp),
      GetFloat(m, EcoTemp, fb.ecoTemp),
      GetUInt(m, EpdRefreshRate, fb.epdRefreshRate),
      GetFloat(m, TempChangeThreshold, fb.tempChangeThreshold),
      GetFloat(m, HumidityChangeThreshold, fb.humidityChangeThreshold),
      GetString(m, Timezone, fb.timezone),
      GetString(m, LanguageCode, fb.languageCode))
  }

  /** Every settings key: the keys `saveAllSettings` writes. */
  predicate CoversSettings(ks: seq<Key>)
  {
    Initialized !in ks && forall k :: k != Initialized ==> k in ks
  }

  /** Loading what a run of writes covering every settings key left behind gives
      back the record written, whatever the fallback and whatever else the
      namespace holds. */
  lemma {:induction false} LoadWritten(m: Flash, s: ThermostatSettings, ks: seq<Key>, fb: ThermostatSettings)
    requires CoversSettings(ks)
    ensures Load(Write(m, s, ks), fb) == s
  {
    var p := Write(m, s, ks);
    assert GetFloat(p, TargetTemp, fb.targetTemp) == s.targetTemp by { WriteAt(m, s, ks, TargetTemp); }
    assert GetString(p, Mode, fb.mode) == s.mode by { WriteAt(m, s, ks, Mode); }
    assert GetFloat(p, TempOffset, fb.tempOffset) == s.tempOffset by { WriteAt(m, s, ks, TempOffset); }
    assert GetFloat(p, Hysteresis, fb.hysteresis) == s.hysteresis by { WriteAt(m, s, ks, Hysteresis); }
    assert GetFloat(p, MinTemp, fb.minTemp) == s.minTemp by { WriteAt(m, s, ks, MinTemp); }
    assert GetFloat(p, MaxTemp, fb.maxTemp) == s.maxTemp by { WriteAt(m, s, ks, MaxTemp); }
    assert GetFloat(p, EcoTemp, fb.ecoTemp) == s.ecoTemp by { WriteAt(m, s, ks, EcoTemp); }
    assert GetUInt(p, EpdRefreshRate, fb.epdRefreshRate) == s.epdRefreshRate by { WriteAt(m, s, ks, EpdRefreshRate); }
    assert GetFloat(p, TempChangeThreshold, fb.tempChangeThreshold) == s.tempChangeThreshold by { WriteAt(m, s, ks, TempChangeThreshold); }
    assert GetFloat(p, HumidityChangeThreshold, fb.humidityChangeThreshold) == s.humidityChangeThreshold by { WriteAt(m, s, ks, HumidityChangeThreshold); }
    assert GetString(p, Timezone, fb.timezone) == s.timezone by { WriteAt(m, s, ks, Timezone); }
    assert GetString(p, LanguageCode, fb.languageCode) == s.languageCode by { WriteAt(m, s, ks, LanguageCode); }
  }

  /** The round trip for `saveAllSettings` itself. */
  lemma LoadSaved(m: Flash, s: ThermostatSettings, fb: ThermostatSettings)
    ensures Load(Write(m, s, SETTINGS_KEYS), fb) == s
  {
    assert CoversSettings(SETTINGS_KEYS);
    LoadWritten(m, s, SETTINGS_KEYS, fb);
  }

  /** Loading twice from the same namespace changes nothing the second time. */
  lemma LoadIdempotent(m: Flash, fb: ThermostatSettings)
    ensures Load(m, Load(m, fb)) == Load(m, fb)
  {
  }

  /** The marker key is not a settings key. */
  lemma LoadIgnoresMarker(m: Flash, fb: ThermostatSettings, v: Value)
    ensures Load(m[Initialized := v], fb) == Load(m, fb)
  {
  }

  /** Outcome of `begin` once the namespace is open. */
  datatype BootResult = BootResult(settings: ThermostatSettings, flash: Flash)

  /** `begin` after `preferences.begin` succeeded, from record `s`: load when the
      marker key exists; otherwise run `saveAllSettings` (a no-op unless the store
      was already initialised) and write the marker. */
  function Boot(m: Flash, s: ThermostatSettings, wasInitialized: bool): (b: BootResult)
    ensures Initialized in b.flash
    ensures Initialized in m ==> b.flash == m
    ensures Initialized !in m && !wasInitialized ==> b.settings == s && b.flash == m[Initialized := BoolVal(true)]
  {
    if Initialized in m then BootResult(Load(m, s), m)
    else BootResult(s, (if wasInitialized then Write(m, s, SETTINGS_KEYS) else m)[Initialized := BoolVal(true)])
  }

  /** Persistence round trip: a namespace carrying the marker whose entries
      load (over the defaults) to `s` boots a fresh store into exactly `s`. */
  lemma {:induction false} RebootRestores(m: Flash, d: ThermostatSettings, s: ThermostatSettings)
    requires Initialized in m && Load(m, d) == s
    ensures Boot(m, d, false) == BootResult(s, m)
  {
  }

  // ---------------------------------------------------------------------------
  // Language packs
  // ---------------------------------------------------------------------------

  datatype LanguagePack = NL | EN

  /** `getLanguagePack`: "nl" and "en" select their pack, anything else falls back to Dutch. */
  function LanguagePackFor(code: string): (p: LanguagePack)
    ensures p == EN <==> code == "en"
    ensures p == NL <==> code != "en"
  {
    if code == "nl" then NL else if code == "en" then EN else NL
  }
}
