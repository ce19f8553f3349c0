/** The decision logic of the HTTP API handler (`APIHandler`): the guard
    chain of the get and set templates, the fields of the status document,
    and which JSON key and which settings-store setter each endpoint uses.
    JSON documents are finite maps; parsing is an input. */
module Api {
  import opened Optional
  import opened Timing
  import opened Settings
  import opened Data

  datatype Json = JNum(n: real) | JStr(s: string)

  type Doc = map<string, Json>

  /** `doc[key]` read as a `float`: a non-number reads as 0. */
  function AsFloat(v: Json): real
  {
    if v.JNum? then v.n else 0.0
  }

  /** `doc[key]` read as a `String`: a non-string reads as "". */
  function AsString(v: Json): string
  {
    if v.JStr? then v.s else ""
  }

  const NOT_INITIALIZED: string := "Data manager not initialized"
  const INVALID_JSON: string := "Invalid JSON"
  const MISSING_FIELD: string := "Missing field"
  /** Answered when a setter returns false; on the device that never reaches
      a client (see `ApiHandler.HandleSet`). */
  const FAILED_TO_SET: string := "Failed to set value"

  /** The error messages are distinct, so a client can tell the failed
      check from the response. */
  lemma ErrorMessagesDistinct()
    ensures NOT_INITIALIZED != INVALID_JSON && NOT_INITIALIZED != MISSING_FIELD
    ensures NOT_INITIALIZED != FAILED_TO_SET && INVALID_JSON != MISSING_FIELD
    ensures INVALID_JSON != FAILED_TO_SET && MISSING_FIELD != FAILED_TO_SET
  {
    assert NOT_INITIALIZED[0] != INVALID_JSON[0] && NOT_INITIALIZED[0] != MISSING_FIELD[0];
    assert NOT_INITIALIZED[0] != FAILED_TO_SET[0] && INVALID_JSON[0] != MISSING_FIELD[0];
    assert INVALID_JSON[0] != FAILED_TO_SET[0] && MISSING_FIELD[0] != FAILED_TO_SET[0];
  }

  function HandleError(msg: string): (d: Doc)
    ensures d.Keys == {"status", "error"}
    ensures d["status"] == JStr("error") && d["error"] == JStr(msg)
  {
    map["status" := JStr("error"), "error" := JStr(msg)]
  }

  /** Values the status document takes from the system: the station
      address, signal strength, free heap and `millis()`. */
  datatype SystemInfo = SystemInfo(ip: string, rssi: int, heap: int, uptimeMs: U32)

  /** What the thermostat object reports. */
  datatype Sensors = Sensors(currentTemp: real, humidity: real)

  const SYSTEM_FIELDS: set<string> := {"status", "ip", "rssi", "heap", "uptime"}
  const STORE_FIELDS: set<string> := {"targetTemp", "ecoTemp", "mode", "maxTemp", "minTemp"}
  const SENSOR_FIELDS: set<string> := {"currentTemp", "humidity"}

  /** `handleStatus`: `store` is the settings record when the store is
      present and initialised, `sensors` the thermostat's values when the
      thermostat is present. */
  function StatusDoc(store: Option<ThermostatSettings>, sensors: Option<Sensors>, sys: SystemInfo): (d: Doc)
    ensures d.Keys == SYSTEM_FIELDS + (if store.Some? then STORE_FIELDS else {})
                                     + (if sensors.Some? then SENSOR_FIELDS else {})
    ensures d["status"] == JStr("ok")
    ensures d["uptime"] == JNum((sys.uptimeMs / 1000) as real)
    ensures store.Some? ==>
              d["targetTemp"] == JNum(store.value.targetTemp) && d["ecoTemp"] == JNum(store.value.ecoTemp) &&
              d["mode"] == JStr(store.value.mode) && d["maxTemp"] == JNum(store.value.maxTemp) &&
              d["minTemp"] == JNum(store.value.minTemp)
    ensures sensors.Some? ==>
              d["currentTemp"] == JNum(sensors.value.currentTemp) && d["humidity"] == JNum(sensors.value.humidity)
  {
    var base := map["status" := JStr("ok"), "ip" := JStr(sys.ip), "rssi" := JNum(sys.rssi as real),
                    "heap" := JNum(sys.heap as real), "uptime" := JNum((sys.uptimeMs / 1000) as real)];
    var withStore :=
      if store.Some? then
        base["targetTemp" := JNum(store.value.targetTemp)]["ecoTemp" := JNum(store.value.ecoTemp)]
            ["mode" := JStr(store.value.mode)]["maxTemp" := JNum(store.value.maxTemp)]
            ["minTemp" := JNum(store.value.minTemp)]
      else base;
    if sensors.Some? then
      withStore["currentTemp" := JNum(sensors.value.currentTemp)]["humidity" := JNum(sensors.value.humidity)]
    else withStore
  }

  /** `handleGet`: an error while the store is absent or uninitialised,
      otherwise "ok" and the one requested key. */
  function GetDoc(storeReady: bool, key: string, value: Json): (d: Doc)
    requires key != "status"
    ensures !storeReady ==> d == HandleError(NOT_INITIALIZED)
    ensures storeReady ==> d.Keys == {"status", key} && d["status"] == JStr("ok") && d[key] == value
  {
    if !storeReady then HandleError(NOT_INITIALIZED)
    else map["status" := JStr("ok"), key := value]
  }

  /** The get endpoints. */
  datatype GetEndpoint = GetCurrentTemp | GetCurrentHumidity | GetTarget | GetEco | GetMode | GetMax | GetMin
  {
    function Key(): string
    {
      match this
      case GetCurrentTemp => "currentTemp"
      case GetCurrentHumidity => "currentHumidity"
      case GetTarget => "targetTemp"
      case GetEco => "ecoTemp"
      case GetMode => "mode"
      case GetMax => "maxTemp"
      case GetMin => "minTemp"
    }

    predicate ReadsThermostat()
    {
      this == GetCurrentTemp || this == GetCurrentHumidity
    }

    function Value(s: ThermostatSettings, t: Sensors): Json
    {
      match this
      case GetCurrentTemp => JNum(t.currentTemp)
      case GetCurrentHumidity => JNum(t.humidity)
      case GetTarget => JNum(s.targetTemp)
      case GetEco => JNum(s.ecoTemp)
      case GetMode => JStr(s.mode)
      case GetMax => JNum(s.maxTemp)
      case GetMin => JNum(s.minTemp)
    }
  }

  /** The set endpoints. */
  datatype SetEndpoint = SetTarget | SetEco | SetModeEndpoint | SetMax | SetMin
  {
    /** The JSON key the endpoint reads. */
    function Key(): string
    {
      match this
      case SetTarget => "targetTemp"
      case SetEco => "ecoTemp"
      case SetModeEndpoint => "mode"
      case SetMax => "maxTemp"
      case SetMin => "minTemp"
    }

    /** The field whose setter the endpoint calls. */
    function Field(): Key
    {
      match this
      case SetTarget => TargetTemp
      case SetEco => EcoTemp
      case SetModeEndpoint => Mode
      case SetMax => MaxTemp
      case SetMin => MinTemp
    }
  }

  /** Each set endpoint reads the JSON key that is also the flash key of the
      field its setter writes, and distinct endpoints use distinct keys. */
  lemma SetBinding(e: SetEndpoint, f: SetEndpoint)
    ensures e.Key() == e.Field().Name()
    ensures e != f ==> e.Key() != f.Key() && e.Field() != f.Field()
  {
  }

  /** What the setter bound to `e` does with value `v`: whether it
      accepts it, the new record, and the flash keys it writes. */
  datatype SetOutcome = SetOutcome(accepted: bool, settings: ThermostatSettings, written: seq<Key>)

  function SetEffect(e: SetEndpoint, s: ThermostatSettings, v: Json): (r: SetOutcome)
    // Only the mode setter can refuse a value (and then restarts the device).
    ensures r.accepted <==> e != SetModeEndpoint || IsValidMode(AsString(v))
    ensures !r.accepted ==> r.settings == s && r.written == []
    // The endpoint's own field is written, and `targetTemp` as well exactly
    // when a bound setter drags it.
    ensures r.accepted ==> r.written == [e.Field()] + (if r.settings.targetTemp != s.targetTemp && e.Field() != TargetTemp then [TargetTemp] else [])
    ensures e != SetMax && e != SetMin ==> r.settings.targetTemp == s.targetTemp || e == SetTarget
    // The ordering invariant holds across every request.
    ensures Bounded(s) ==> Bounded(r.settings)
    ensures r.settings.hysteresis == s.hysteresis && r.settings.tempOffset == s.tempOffset
    ensures r.settings.timezone == s.timezone && r.settings.languageCode == s.languageCode
  {
    match e
    case SetTarget => SetOutcome(true, WithTargetTemp(s, AsFloat(v)), [TargetTemp])
    case SetEco => SetOutcome(true, WithEcoTemp(s, AsFloat(v)), [EcoTemp])
    case SetModeEndpoint =>
      if IsValidMode(AsString(v)) then SetOutcome(true, s.(mode := AsString(v)), [Mode])
      else SetOutcome(false, s, [])
    case SetMax =>
      var r := WithMaxTemp(s, AsFloat(v));
      SetOutcome(true, r, [MaxTemp] + (if r.targetTemp != s.targetTemp then [TargetTemp] else []))
    case SetMin =>
      var r := WithMinTemp(s, AsFloat(v));
      SetOutcome(true, r, [MinTemp] + (if r.targetTemp != s.targetTemp then [TargetTemp] else []))
  }

  lemma WriteOne(m: Flash, s: ThermostatSettings, k: Key)
    requires k != Initialized
    ensures Write(m, s, [k]) == m[k := Entry(s, k)]
  {
    assert [k][..0] == [];
  }

  lemma WriteTwo(m: Flash, s: ThermostatSettings, a: Key, b: Key)
    requires a != Initialized && b != Initialized
    ensures Write(m, s, [a] + [b]) == m[a := Entry(s, a)][b := Entry(s, b)]
  {
    assert ([a] + [b])[..1] == [a];
    WriteOne(m, s, a);
  }

  class ApiHandler {
    /** May be null, as the pointer the firmware passes may be. */
    const dataManager: DataManager?

    constructor(dm: DataManager?)
      ensures dataManager == dm
    {
      dataManager := dm;
    }

    predicate StoreReady()
      reads dataManager
    {
      dataManager != null && dataManager.initialized
    }

    function Store(): (o: Option<ThermostatSettings>)
      reads dataManager
      ensures o.Some? <==> StoreReady()
      ensures o.Some? ==> o.value == dataManager.settings
    {
      if StoreReady() then Some(dataManager.settings) else None
    }

    /** `handleStatus`: the settings appear exactly when the store is
        present and initialised, the readings exactly when the thermostat is. */
    function HandleStatus(sensors: Option<Sensors>, sys: SystemInfo): (d: Doc)
      reads dataManager
      ensures "status" in d && d["status"] == JStr("ok")
      ensures "targetTemp" in d <==> StoreReady()
      ensures "currentTemp" in d <==> sensors.Some?
      ensures StoreReady() ==> "mode" in d && d["mode"] == JStr(dataManager.settings.mode)
    {
      StatusDoc(Store(), sensors, sys)
    }

    /** A get endpoint. The firmware evaluates the value before the guard,
        so the object it reads must exist even when the guard then fails:
        the store for settings, the thermostat for readings. Readings are
        still refused while the store is not initialised. */
    function HandleGetEndpoint(g: GetEndpoint, thermostat: Sensors): (d: Doc)
      requires !g.ReadsThermostat() ==> dataManager != null
      reads dataManager
      ensures !StoreReady() ==> d == HandleError(NOT_INITIALIZED)
      ensures StoreReady() ==> d == map["status" := JStr("ok"), g.Key() := g.Value(dataManager.settings, thermostat)]
    {
      GetDoc(StoreReady(), g.Key(), if dataManager == null then JNum(0.0) else g.Value(dataManager.settings, thermostat))
    }

    /** The setter call that ends the guard chain. */
    method CallSetter(e: SetEndpoint, v: Json) returns (ok: bool)
      requires dataManager != null && dataManager.Valid() && dataManager.initialized
      modifies dataManager
      ensures dataManager.Valid() && dataManager.initialized
      ensures var r := SetEffect(e, old(dataManager.settings), v);
              ok == r.accepted && dataManager.settings == r.settings &&
              dataManager.preferences == Write(old(dataManager.preferences), r.settings, r.written) &&
              dataManager.restartRequested == (old(dataManager.restartRequested) || !ok)
    {
      ghost var m := dataManager.preferences;
      match e {
        case SetTarget =>
          ok := dataManager.SetTargetTemp(AsFloat(v));
          WriteOne(m, dataManager.settings, TargetTemp);
        case SetEco =>
          ok := dataManager.SetEcoTemp(AsFloat(v));
          WriteOne(m, dataManager.settings, EcoTemp);
        case SetModeEndpoint =>
          ok := dataManager.SetMode(AsString(v));
          WriteOne(m, dataManager.settings, Mode);
        case SetMax =>
          ok := dataManager.SetMaxTemp(AsFloat(v));
          WriteOne(m, dataManager.settings, MaxTemp);
          WriteTwo(m, dataManager.settings, MaxTemp, TargetTemp);
        case SetMin =>
          ok := dataManager.SetMinTemp(AsFloat(v));
          WriteOne(m, dataManager.settings, MinTemp);
          WriteTwo(m, dataManager.settings, MinTemp, TargetTemp);
      }
    }

    /** `handleSet` for endpoint `e`; `body` is the parsed request, `None`
        when it is not valid JSON. The response is `None` when the device
        restarted: past the first guard a bound setter refuses a value only
        by calling `ESP.restart()`, so "Failed to set value" is never sent. */
    method HandleSet(e: SetEndpoint, body: Option<Doc>, sensors: Option<Sensors>, sys: SystemInfo)
      returns (out: Option<Doc>)
      requires dataManager != null ==> dataManager.Valid()
      modifies dataManager
      ensures dataManager != null ==> dataManager.Valid()
      ensures !old(StoreReady()) ==> out == Some(HandleError(NOT_INITIALIZED))
      ensures old(StoreReady()) && body.None? ==> out == Some(HandleError(INVALID_JSON))
      ensures old(StoreReady()) && body.Some? && e.Key() !in body.value ==> out == Some(HandleError(MISSING_FIELD))
      // The setter runs only after all three checks pass.
      ensures !(old(StoreReady()) && body.Some? && e.Key() in body.value) ==>
                dataManager == null || unchanged(dataManager)
      ensures old(StoreReady()) && body.Some? && e.Key() in body.value ==>
                var r := SetEffect(e, old(dataManager.settings), body.value[e.Key()]);
                dataManager.settings == r.settings &&
                dataManager.preferences == Write(old(dataManager.preferences), r.settings, r.written) &&
                dataManager.initialized &&
                dataManager.restartRequested == (old(dataManager.restartRequested) || !r.accepted) &&
                out == (if r.accepted then Some(StatusDoc(Some(r.settings), sensors, sys)) else None)
    {
      if dataManager == null || !dataManager.initialized {
        return Some(HandleError(NOT_INITIALIZED));
      }
      if body.None? {
        return Some(HandleError(INVALID_JSON));
      }
      if e.Key() !in body.value {
        return Some(HandleError(MISSING_FIELD));
      }
      var ok := CallSetter(e, body.value[e.Key()]);
      if ok {
        out := Some(HandleStatus(sensors, sys));
      } else {
        out := None;
      }
    }
  }
}
