/** `MQTTManager`: the Home Assistant bridge. A four-state connection machine,
    a 2 s state poll that publishes on change, and the translation of incoming
    commands into settings-store calls. The broker is not modelled: whether a
    connect succeeded and whether the client is still connected are inputs,
    and published messages are collected in `outbox`. */
module Mqtt {
  import opened Optional
  import opened Timing
  import opened Settings
  import opened Data

  datatype MqttState = Disconnected | Connecting | Connected | Failed

  const RECONNECT_INTERVAL: U32 := 5000
  const POLL_INTERVAL: U32 := 2000

  /** `commandTopic`: the base topic of device "thermostat" plus "/set". */
  const COMMAND_TOPIC: string := "homeassistant/climate/thermostat/set"

  /** What the thermostat reports at a poll. */
  datatype Reading = Reading(currentTemp: real, humidity: real, heatingActive: bool)

  /** The `lastPublished*` fields. */
  datatype Published = Published(currentTemp: real, targetTemp: real, humidity: real, mode: string, heatingActive: bool)

  const NOTHING_PUBLISHED: Published := Published(-999.0, -999.0, -999.0, "", false)

  /** Home Assistant's view of the internal mode. */
  datatype HaView = HaView(mode: string, preset: string)

  /** The JSON state document `publishState` sends. */
  datatype StatePayload = StatePayload(
    currentTemperature: real, temperature: real, mode: string, preset: string, humidity: real, action: string)

  /** What the manager hands to the MQTT client. */
  datatype Message =
    | Availability(status: string)
    | ClimateDiscovery
    | HumidityDiscovery
    | TemperatureDiscovery
    | State(payload: StatePayload)

  /** The mode/preset mapping of `publishState`: off is (off, comfort), eco is
      (heat, eco) and anything else is (heat, comfort). */
  function HaModePreset(mode: string): (v: HaView)
    ensures v.mode == "off" <==> mode == "off"
    ensures v.mode == "heat" <==> mode != "off"
    ensures v.preset == "eco" <==> mode == "eco"
    ensures v.preset == "comfort" <==> mode != "eco"
  {
    if mode == "off" then HaView("off", "comfort")
    else if mode == "eco" then HaView("heat", "eco")
    else HaView("heat", "comfort")
  }

  /** The state document for record `s` and reading `r`; a pending forced
      poll adds 0.1 to the current temperature so that it differs. */
  function StatePayloadFor(s: ThermostatSettings, r: Reading, force: bool): (p: StatePayload)
    ensures HaView(p.mode, p.preset) == HaModePreset(s.mode)
    ensures p.temperature == ActiveTarget(s)
    ensures p.currentTemperature == if force then r.currentTemp + 0.1 else r.currentTemp
    ensures p.humidity == r.humidity
    ensures p.action == (if r.heatingActive then "heating" else "idle")
  {
    var v := HaModePreset(s.mode);
    StatePayload(if force then r.currentTemp + 0.1 else r.currentTemp, ActiveTarget(s),
                 v.mode, v.preset, r.humidity, if r.heatingActive then "heating" else "idle")
  }

  /** The values a poll compares with the last published ones. */
  function Observed(s: ThermostatSettings, r: Reading, force: bool): (o: Published)
    ensures o.targetTemp == ActiveTarget(s) && o.mode == s.mode
    ensures o.currentTemp == if force then r.currentTemp + 0.1 else r.currentTemp
    ensures o.humidity == r.humidity && o.heatingActive == r.heatingActive
  {
    Published(if force then r.currentTemp + 0.1 else r.currentTemp, ActiveTarget(s), r.humidity, s.mode, r.heatingActive)
  }

  /** The messages of a successful connect: availability, discovery, state. */
  function ConnectMessages(s: ThermostatSettings, r: Reading, force: bool): (ms: seq<Message>)
    ensures |ms| == 5 && ms[0] == Availability("online") && ms[4] == State(StatePayloadFor(s, r, force))
  {
    [Availability("online"), ClimateDiscovery, HumidityDiscovery, TemperatureDiscovery,
     State(StatePayloadFor(s, r, force))]
  }

  /** The connection state after one `update`, given the time since the last
      connection attempt and the broker's answers. */
  function NextState(st: MqttState, sinceAttempt: U32, netConnected: bool, connectOk: bool, stillConnected: bool): (r: MqttState)
    ensures r == Connecting <==> st == Disconnected && netConnected && sinceAttempt > RECONNECT_INTERVAL
    ensures r == Connected <==> (st == Connecting && connectOk) || (st == Connected && stillConnected)
    ensures r == Failed <==> (st == Connecting && !connectOk) || (st == Failed && sinceAttempt <= RECONNECT_INTERVAL)
    ensures r == Disconnected <==>
              (st == Disconnected && !(netConnected && sinceAttempt > RECONNECT_INTERVAL))
              || (st == Failed && sinceAttempt > RECONNECT_INTERVAL)
              || (st == Connected && !stillConnected)
  {
    match st
    case Disconnected => if netConnected && sinceAttempt > RECONNECT_INTERVAL then Connecting else Disconnected
    case Connecting => if connectOk then Connected else Failed
    case Failed => if sinceAttempt > RECONNECT_INTERVAL then Disconnected else Failed
    case Connected => if stillConnected then Connected else Disconnected
  }

  /** The poll bookkeeping fields. */
  datatype PollState = PollState(lastPublished: Published, lastPollTime: U32, forceNextPoll: bool)

  datatype PollResult = PollResult(next: PollState, sent: seq<Message>)

  /** One poll of `handleConnectedState` while still connected: when
      POLL_INTERVAL has elapsed, publish if anything changed or a poll was
      forced; a forced poll clears the flag but leaves `lastPollTime` alone. */
  function Poll(p: PollState, now: U32, s: ThermostatSettings, r: Reading): (res: PollResult)
    ensures Elapsed(now, p.lastPollTime) < POLL_INTERVAL ==> res.next == p && res.sent == []
    ensures Elapsed(now, p.lastPollTime) >= POLL_INTERVAL ==>
              !res.next.forceNextPoll
              && res.next.lastPollTime == (if p.forceNextPoll then p.lastPollTime else now)
              && (res.sent != [] <==> Observed(s, r, p.forceNextPoll) != p.lastPublished || p.forceNextPoll)
    ensures res.sent == [] ==> res.next.lastPublished == p.lastPublished
    ensures res.sent != [] ==> res.sent == [State(StatePayloadFor(s, r, p.forceNextPoll))]
                               && res.next.lastPublished == Observed(s, r, p.forceNextPoll)
  {
    if Elapsed(now, p.lastPollTime) < POLL_INTERVAL then PollResult(p, [])
    else
      var o := Observed(s, r, p.forceNextPoll);
      var publish := o != p.lastPublished || p.forceNextPoll;
      var last := if publish then o else p.lastPublished;
      var sent := if publish then [State(StatePayloadFor(s, r, p.forceNextPoll))] else [];
      var time := if p.forceNextPoll then p.lastPollTime else now;
      PollResult(PollState(last, time, false), sent)
  }

  /** Change detection settles: after an unforced poll, the next due poll with
      the same reading and settings publishes nothing. */
  lemma {:induction false} PollSettles(p: PollState, now: U32, later: U32, s: ThermostatSettings, r: Reading)
    requires !p.forceNextPoll && Elapsed(now, p.lastPollTime) >= POLL_INTERVAL
    ensures Poll(Poll(p, now, s, r).next, later, s, r).sent == []
  {
    var q := Poll(p, now, s, r).next;
    assert q.lastPublished == Observed(s, r, false);
  }

  /** A forced poll publishes, and the next due poll publishes again: the
      reading it publishes differs from the +0.1 one by construction. */
  lemma {:induction false} ForcedPollRepublishes(p: PollState, now: U32, later: U32, s: ThermostatSettings, r: Reading)
    requires p.forceNextPoll && Elapsed(now, p.lastPollTime) >= POLL_INTERVAL
    requires Elapsed(later, p.lastPollTime) >= POLL_INTERVAL
    ensures Poll(p, now, s, r).sent != []
    ensures Poll(Poll(p, now, s, r).next, later, s, r).sent == [State(StatePayloadFor(s, r, false))]
  {
    var q := Poll(p, now, s, r).next;
    assert q.lastPollTime == p.lastPollTime;
    assert q.lastPublished.currentTemp == r.currentTemp + 0.1;
    assert Observed(s, r, false) != q.lastPublished;
  }

  /** A command's `lastPollTime -= POLL_INTERVAL` makes the next poll due,
      unless the counter is within POLL_INTERVAL of a full wrap-around. */
  lemma RewindMakesPollDue(now: U32, t: U32)
    requires Elapsed(now, t) < WRAP - POLL_INTERVAL
    ensures Elapsed(now, Rewind(t, POLL_INTERVAL)) >= POLL_INTERVAL
  {
    ElapsedAfterRewind(now, t, POLL_INTERVAL);
  }

  /** Arduino `String::toLowerCase` on ASCII. */
  function Lower(s: string): (r: string)
    ensures |r| == |s|
    ensures forall i :: 0 <= i < |s| ==> if 'A' <= s[i] <= 'Z' then r[i] as int == s[i] as int + 32 else r[i] == s[i]
  {
    seq(|s|, i requires 0 <= i < |s| => if 'A' <= s[i] <= 'Z' then (s[i] as int + 32) as char else s[i])
  }

  /** Lower-casing twice is lower-casing once. */
  lemma LowerIdempotent(s: string)
    ensures Lower(Lower(s)) == Lower(s)
  {
  }

  /** The commands `handleMessage` recognises, by topic. */
  datatype Command = TemperatureCommand | ModeCommand | PresetCommand | NoCommand

  function CommandFor(topic: string): (c: Command)
    ensures c == TemperatureCommand <==> topic == COMMAND_TOPIC + "/temperature"
    ensures c == ModeCommand <==> topic == COMMAND_TOPIC + "/mode"
    ensures c == PresetCommand <==> topic == COMMAND_TOPIC + "/preset"
  {
    if topic == COMMAND_TOPIC + "/temperature" then TemperatureCommand
    else if topic == COMMAND_TOPIC + "/mode" then ModeCommand
    else if topic == COMMAND_TOPIC + "/preset" then PresetCommand
    else NoCommand
  }

  /** The internal mode a Home Assistant mode command asks for: "off" and
      "heat" (any case) become off and on; anything else asks for nothing. */
  function ModeRequest(payload: string): (r: Option<string>)
    ensures r == Some("off") <==> Lower(payload) == "off"
    ensures r == Some("on") <==> Lower(payload) == "heat"
    ensures r.None? <==> Lower(payload) != "off" && Lower(payload) != "heat"
  {
    var p := Lower(payload);
    if p == "off" then Some("off") else if p == "heat" then Some("on") else None
  }

  /** The internal mode a preset command asks for: eco and comfort (any case)
      become eco and on, but only while the mode is not off. */
  function PresetRequest(current: string, payload: string): (r: Option<string>)
    ensures r == Some("eco") <==> current != "off" && Lower(payload) == "eco"
    ensures r == Some("on") <==> current != "off" && Lower(payload) == "comfort"
    ensures r.None? <==> current == "off" || (Lower(payload) != "eco" && Lower(payload) != "comfort")
  {
    var p := Lower(payload);
    if p == "eco" && current != "off" then Some("eco")
    else if p == "comfort" && current != "off" then Some("on")
    else None
  }

  /** Round trip: Home Assistant echoing back the mode and then the preset it
      was shown restores the internal mode, from any starting mode. */
  lemma {:induction false} HaRoundTrip(m: string)
    requires IsValidMode(m)
    ensures var v := HaModePreset(m);
            var afterMode := ModeRequest(v.mode);
            afterMode.Some? && IsValidMode(afterMode.value)
            && (var p := PresetRequest(afterMode.value, v.preset);
                (if p.Some? then p.value else afterMode.value) == m)
  {
    assert Lower("off") == "off";
    assert Lower("heat") == "heat";
    assert Lower("eco") == "eco";
    assert Lower("comfort") == "comfort";
  }

  /** The store after a `setMode` made only when `req` is present. */
  ghost predicate ModeStored(s: ThermostatSettings, m: Flash, initialized: bool, req: Option<string>,
                             s2: ThermostatSettings, m2: Flash)
  {
    if initialized && req.Some? then s2 == s.(mode := req.value) && m2 == m[Mode := StringVal(req.value)]
    else s2 == s && m2 == m
  }

  class MqttManager {
    const dataManager: DataManager
    var state: MqttState
    var initialized: bool
    var lastConnectionAttempt: U32
    var lastPublished: Published
    var lastPollTime: U32
    var forceNextPoll: bool
    /** Every message handed to the MQTT client, oldest first. */
    var outbox: seq<Message>

    constructor (dm: DataManager)
      ensures dataManager == dm && state == Disconnected && !initialized
      ensures lastConnectionAttempt == 0 && lastPollTime == 0 && !forceNextPoll
      ensures lastPublished == NOTHING_PUBLISHED && outbox == []
    {
      dataManager := dm;
      state := Disconnected;
      initialized := false;
      lastConnectionAttempt := 0;
      lastPublished := NOTHING_PUBLISHED;
      lastPollTime := 0;
      forceNextPoll := false;
      outbox := [];
    }

    /** `begin`: configures the client once; a second call does nothing. */
    method Begin()
      modifies this`initialized
      ensures initialized
    {
      if initialized {
        return;
      }
      initialized := true;
    }

    /** `publish`: only while connected. `accepted` is the client's own result. */
    method Publish(msg: Message, accepted: bool) returns (ok: bool)
      modifies this`outbox
      ensures ok == (state == Connected && accepted)
      ensures outbox == if state == Connected then old(outbox) + [msg] else old(outbox)
    {
      if state != Connected {
        return false;
      }
      outbox := outbox + [msg];
      ok := accepted;
    }

    /** `publishState`: the state document, only while connected. */
    method PublishState(r: Reading)
      modifies this`outbox
      ensures outbox == if state == Connected then old(outbox) + [State(StatePayloadFor(dataManager.settings, r, forceNextPoll))]
                        else old(outbox)
    {
      if state != Connected {
        return;
      }
      var p := StatePayloadFor(dataManager.settings, r, forceNextPoll);
      var _ := Publish(State(p), true);
    }

    /** `handleConnectedState`: drop to DISCONNECTED when the client lost the
        connection, otherwise poll. */
    method HandleConnectedState(now: U32, stillConnected: bool, r: Reading)
      requires state == Connected
      modifies this
      ensures initialized == old(initialized) && lastConnectionAttempt == old(lastConnectionAttempt)
      ensures !stillConnected ==> state == Disconnected && outbox == old(outbox)
                                  && PollState(lastPublished, lastPollTime, forceNextPoll)
                                     == old(PollState(lastPublished, lastPollTime, forceNextPoll))
      ensures stillConnected ==>
                var res := Poll(old(PollState(lastPublished, lastPollTime, forceNextPoll)), now, dataManager.settings, r);
                state == Connected && PollState(lastPublished, lastPollTime, forceNextPoll) == res.next
                && outbox == old(outbox) + res.sent
    {
      if !stillConnected {
        state := Disconnected;
        return;
      }
      if Elapsed(now, lastPollTime) >= POLL_INTERVAL {
        var mode := dataManager.settings.mode;
        var targetTemp := if mode == "eco" then dataManager.settings.ecoTemp else dataManager.settings.targetTemp;
        var currentTemp := r.currentTemp;
        if forceNextPoll {
          currentTemp := currentTemp + 0.1;
        }
        var seen := Published(currentTemp, targetTemp, r.humidity, mode, r.heatingActive);
        if seen != lastPublished || forceNextPoll {
          PublishState(r);
          lastPublished := seen;
        }
        if forceNextPoll {
          forceNextPoll := false;
        } else {
          lastPollTime := now;
        }
      }
    }

    /** `update`, with `now` the value of `millis()`. */
    method Update(now: U32, netConnected: bool, connectOk: bool, stillConnected: bool, r: Reading)
      modifies this
      ensures initialized == old(initialized)
      ensures !old(initialized) ==> unchanged(this)
      ensures old(initialized) ==>
                state == NextState(old(state), Elapsed(now, old(lastConnectionAttempt)), netConnected, connectOk, stillConnected)
      ensures lastConnectionAttempt
              == if old(initialized) && old(state) == Disconnected && state == Connecting then now else old(lastConnectionAttempt)
      ensures old(initialized) && old(state) == Connecting && connectOk ==>
                outbox == old(outbox) + ConnectMessages(dataManager.settings, r, forceNextPoll)
      ensures old(initialized) && old(state) == Connected && stillConnected ==>
                var res := Poll(old(PollState(lastPublished, lastPollTime, forceNextPoll)), now, dataManager.settings, r);
                PollState(lastPublished, lastPollTime, forceNextPoll) == res.next && outbox == old(outbox) + res.sent
      ensures !(old(initialized) && old(state) == Connected && stillConnected) ==>
                PollState(lastPublished, lastPollTime, forceNextPoll) == old(PollState(lastPublished, lastPollTime, forceNextPoll))
      ensures !(old(initialized) && old(state) in {Connecting, Connected}) ==> outbox == old(outbox)
      ensures old(initialized) && old(state) == Connecting && !connectOk ==> outbox == old(outbox)
      ensures old(initialized) && old(state) == Connected && !stillConnected ==> outbox == old(outbox)
    {
      if !initialized {
        return;
      }
      match state {
        case Disconnected =>
          if netConnected && Elapsed(now, lastConnectionAttempt) > RECONNECT_INTERVAL {
            state := Connecting;
            lastConnectionAttempt := now;
          }
        case Connecting =>
          if connectOk {
            state := Connected;
            var _ := Publish(Availability("online"), true);
            var _ := Publish(ClimateDiscovery, true);
            var _ := Publish(HumidityDiscovery, true);
            var _ := Publish(TemperatureDiscovery, true);
            PublishState(r);
          } else {
            state := Failed;
          }
        case Failed =>
          if Elapsed(now, lastConnectionAttempt) > RECONNECT_INTERVAL {
            state := Disconnected;
          }
        case Connected =>
          HandleConnectedState(now, stillConnected, r);
      }
    }

    /** `handleMessage`: `payloadFloat` is `payload.toFloat()`. Every
        recognised command rewinds `lastPollTime` by POLL_INTERVAL so that
        the next `update` polls at once. */
    method HandleMessage(topic: string, payload: string, payloadFloat: real)
      requires dataManager.Valid()
      modifies this, dataManager
      ensures dataManager.Valid()
      ensures state == old(state) && initialized == old(initialized) && lastConnectionAttempt == old(lastConnectionAttempt)
      ensures lastPublished == old(lastPublished) && outbox == old(outbox)
      ensures dataManager.initialized == old(dataManager.initialized)
      ensures dataManager.restartRequested == old(dataManager.restartRequested)
      ensures old(dataManager.Durable()) ==> dataManager.Durable()
      ensures CommandFor(topic) == NoCommand ==>
                lastPollTime == old(lastPollTime) && forceNextPoll == old(forceNextPoll) && unchanged(dataManager)
      ensures CommandFor(topic) != NoCommand ==> lastPollTime == Rewind(old(lastPollTime), POLL_INTERVAL)
      // a temperature command is refused in eco mode and forces the next poll
      ensures CommandFor(topic) == TemperatureCommand && old(dataManager.settings.mode) == "eco" ==>
                forceNextPoll && unchanged(dataManager)
      ensures CommandFor(topic) == TemperatureCommand && old(dataManager.settings.mode) != "eco" ==>
                forceNextPoll == old(forceNextPoll)
                && if old(dataManager.initialized) then
                     dataManager.settings == WithTargetTemp(old(dataManager.settings), payloadFloat)
                     && dataManager.preferences == old(dataManager.preferences)[TargetTemp := FloatVal(dataManager.settings.targetTemp)]
                   else unchanged(dataManager)
      ensures CommandFor(topic) == ModeCommand ==>
                forceNextPoll == old(forceNextPoll)
                && ModeStored(old(dataManager.settings), old(dataManager.preferences), old(dataManager.initialized),
                              ModeRequest(payload), dataManager.settings, dataManager.preferences)
      // a preset that cannot be applied forces the next poll instead
      ensures CommandFor(topic) == PresetCommand ==>
                var req := PresetRequest(old(dataManager.settings.mode), payload);
                forceNextPoll == (old(forceNextPoll) || req.None?)
                && ModeStored(old(dataManager.settings), old(dataManager.preferences), old(dataManager.initialized),
                              req, dataManager.settings, dataManager.preferences)
    {
      if topic == COMMAND_TOPIC + "/temperature" {
        if dataManager.settings.mode == "eco" {
          forceNextPoll := true;
          lastPollTime := Rewind(lastPollTime, POLL_INTERVAL);
          return;
        }
        var _ := dataManager.SetTargetTemp(payloadFloat);
        lastPollTime := Rewind(lastPollTime, POLL_INTERVAL);
      } else if topic == COMMAND_TOPIC + "/mode" {
        var p := Lower(payload);
        if p == "off" {
          var _ := dataManager.SetMode("off");
        } else if p == "heat" {
          var _ := dataManager.SetMode("on");
        }
        lastPollTime := Rewind(lastPollTime, POLL_INTERVAL);
      } else if topic == COMMAND_TOPIC + "/preset" {
        var p := Lower(payload);
        var currentMode := dataManager.settings.mode;
        if p == "eco" && currentMode != "off" {
          var _ := dataManager.SetMode("eco");
        } else if p == "comfort" && currentMode != "off" {
          var _ := dataManager.SetMode("on");
        } else {
          forceNextPoll := true;
        }
        lastPollTime := Rewind(lastPollTime, POLL_INTERVAL);
      }
    }
  }
}
