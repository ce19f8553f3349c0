/** `ButtonManager`: the four front-panel buttons and the store calls their
    click handlers make. The OneButton debouncing and callback plumbing is not
    modelled; each handler is a method run when its event fires. */
module Buttons {
  import opened Optional
  import opened Settings
  import opened Data

  /** The mode a single click on MODE asks for: eco and on swap, any other
      mode (including "off") asks for nothing. */
  function SingleClickMode(mode: string): (r: Option<string>)
    ensures r == Some("on") <==> mode == "eco"
    ensures r == Some("eco") <==> mode == "on"
    ensures r.None? <==> mode != "eco" && mode != "on"
  {
    if mode == "eco" then Some("on")
    else if mode == "on" then Some("eco")
    else None
  }

  /** The mode a long press on MODE asks for: "off" from any other mode, "on" from "off". */
  function LongPressMode(mode: string): (r: string)
    ensures IsValidMode(r)
    ensures r == "off" <==> mode != "off"
    ensures r == "on" <==> mode == "off"
  {
    if mode != "off" then "off" else "on"
  }

  /** Two single clicks bring eco and on back to where they started. */
  lemma SingleClickTwice(mode: string)
    requires mode == "eco" || mode == "on"
    ensures SingleClickMode(mode).Some?
    ensures SingleClickMode(SingleClickMode(mode).value) == Some(mode)
  {
  }

  /** Two long presses: off comes back to off, any other mode ends "on". */
  lemma LongPressTwice(mode: string)
    ensures LongPressMode(LongPressMode(mode)) == (if mode == "off" then "off" else "on")
  {
  }

  /** The target TEMP UP (`up`) or TEMP DOWN asks the store for after `clicks`
      clicks: half a degree per click. */
  function NudgedTarget(target: real, clicks: int, up: bool): (r: real)
    ensures up ==> r - target == clicks as real / 2.0
    ensures !up ==> target - r == clicks as real / 2.0
  {
    if up then target + clicks as real * 0.5 else target - clicks as real * 0.5
  }

  /** Nudging up never lowers the target and nudging down never raises it,
      and the stored result stays within the record's bounds. */
  lemma {:induction false} NudgeMonotone(s: ThermostatSettings, clicks: nat)
    requires Bounded(s)
    ensures var up := WithTargetTemp(s, NudgedTarget(s.targetTemp, clicks, true));
            s.targetTemp <= up.targetTemp <= s.maxTemp && Bounded(up)
    ensures var down := WithTargetTemp(s, NudgedTarget(s.targetTemp, clicks, false));
            s.minTemp <= down.targetTemp <= s.targetTemp && Bounded(down)
  {
    var u := NudgedTarget(s.targetTemp, clicks, true);
    var d := NudgedTarget(s.targetTemp, clicks, false);
    assert u >= s.targetTemp && d <= s.targetTemp;
  }

  /** Up then down by the same number of clicks is the identity while the
      first nudge stays below the maximum. */
  lemma {:induction false} NudgeUpDown(s: ThermostatSettings, clicks: nat)
    requires Bounded(s) && s.targetTemp + clicks as real * 0.5 <= s.maxTemp
    ensures var up := WithTargetTemp(s, NudgedTarget(s.targetTemp, clicks, true));
            WithTargetTemp(up, NudgedTarget(up.targetTemp, clicks, false)) == s
  {
    var up := WithTargetTemp(s, NudgedTarget(s.targetTemp, clicks, true));
    assert up.targetTemp == s.targetTemp + clicks as real * 0.5;
    assert NudgedTarget(up.targetTemp, clicks, false) == s.targetTemp;
  }

  class ButtonManager {
    const dataManager: DataManager

    constructor (dm: DataManager)
      ensures dataManager == dm
    {
      dataManager := dm;
    }

    /** MODE single click: reads the mode once, so at most one `setMode`. */
    method HandleModeSingleClick()
      requires dataManager.Valid()
      modifies dataManager
      ensures dataManager.Valid()
      ensures var req := SingleClickMode(old(dataManager.settings.mode));
              if old(dataManager.initialized) && req.Some? then
                dataManager.settings == old(dataManager.settings).(mode := req.value)
                && dataManager.preferences == old(dataManager.preferences)[Mode := StringVal(req.value)]
                && dataManager.initialized && dataManager.restartRequested == old(dataManager.restartRequested)
              else unchanged(dataManager)
      ensures old(dataManager.Durable()) ==> dataManager.Durable()
    {
      var mode := dataManager.settings.mode;
      if mode == "eco" {
        var _ := dataManager.SetMode("on");
      }
      if mode == "on" {
        var _ := dataManager.SetMode("eco");
      }
    }

    /** MODE long press. */
    method HandleModeLongClick()
      requires dataManager.Valid()
      modifies dataManager
      ensures dataManager.Valid()
      ensures var req := LongPressMode(old(dataManager.settings.mode));
              if old(dataManager.initialized) then
                dataManager.settings == old(dataManager.settings).(mode := req)
                && dataManager.preferences == old(dataManager.preferences)[Mode := StringVal(req)]
                && dataManager.initialized && dataManager.restartRequested == old(dataManager.restartRequested)
              else unchanged(dataManager)
      ensures old(dataManager.Durable()) ==> dataManager.Durable()
    {
      var mode := dataManager.settings.mode;
      if mode != "off" {
        var _ := dataManager.SetMode("off");
      } else {
        var _ := dataManager.SetMode("on");
      }
    }

    /** TEMP UP after `clicks` clicks (single, double or multi click). */
    method HandleTempUpClick(clicks: int)
      requires dataManager.Valid()
      modifies dataManager
      ensures dataManager.Valid()
      ensures NudgeEffect(old(dataManager.settings), old(dataManager.preferences), old(dataManager.initialized),
                          clicks, true, dataManager.settings, dataManager.preferences)
      ensures dataManager.initialized == old(dataManager.initialized)
      ensures dataManager.restartRequested == old(dataManager.restartRequested)
      ensures old(dataManager.Durable()) ==> dataManager.Durable()
    {
      if dataManager.settings.mode == "on" {
        var _ := dataManager.SetTargetTemp(dataManager.settings.targetTemp + clicks as real * 0.5);
      }
    }

    /** TEMP DOWN after `clicks` clicks. */
    method HandleTempDownClick(clicks: int)
      requires dataManager.Valid()
      modifies dataManager
      ensures dataManager.Valid()
      ensures NudgeEffect(old(dataManager.settings), old(dataManager.preferences), old(dataManager.initialized),
                          clicks, false, dataManager.settings, dataManager.preferences)
      ensures dataManager.initialized == old(dataManager.initialized)
      ensures dataManager.restartRequested == old(dataManager.restartRequested)
      ensures old(dataManager.Durable()) ==> dataManager.Durable()
    {
      if dataManager.settings.mode == "on" {
        var _ := dataManager.SetTargetTemp(dataManager.settings.targetTemp - clicks as real * 0.5);
      }
    }

    /** PROG single click: only logs. */
    method HandleProgSingleClick()
      ensures unchanged(dataManager)
    {
    }
  }

  /** What a TEMP UP/DOWN press does to the store: in "on" mode with the store
      initialised, the clamped nudged target is stored and persisted; in every
      other case nothing changes. */
  ghost predicate NudgeEffect(s: ThermostatSettings, m: Flash, initialized: bool, clicks: int, up: bool,
                              s2: ThermostatSettings, m2: Flash)
  {
    if initialized && s.mode == "on" then
      s2 == WithTargetTemp(s, NudgedTarget(s.targetTemp, clicks, up))
      && m2 == m[TargetTemp := FloatVal(s2.targetTemp)]
    else s2 == s && m2 == m
  }
}
