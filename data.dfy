/** `DataManager`: the settings store. It keeps the current record in RAM and
    writes every change through to the "thermostat" flash namespace. */
module Data {
  import opened Timing
  import opened Settings

  /** A namespace without the marker that a first boot may find: one whose
      entries load to the defaults (an empty namespace is one). */
  predicate FirstBootClean(m: Flash, d: ThermostatSettings)
  {
    Initialized in m || Load(m, d) == d
  }

  /** Flash after `reset` as the code is written: `clear()` then `saveAllSettings()`. */
  function ResetFlashAsWritten(d: ThermostatSettings): (m: Flash)
    ensures Initialized !in m
    ensures Load(m, d) == d
  {
    LoadSaved(map[], d, d);
    WriteSpec(map[], d, SETTINGS_KEYS);
    Write(map[], d, SETTINGS_KEYS)
  }

  /** Flash after `reset` with the marker written back, as the store needs it. */
  function ResetFlash(d: ThermostatSettings): (m: Flash)
    ensures Initialized in m
    ensures Load(m, d) == d
  {
    LoadSaved(map[], d, d);
    LoadIgnoresMarker(Write(map[], d, SETTINGS_KEYS), d, BoolVal(true));
    Write(map[], d, SETTINGS_KEYS)[Initialized := BoolVal(true)]
  }

  /** The keys the four temperature setters of `updateSettings` write last. */
  const BOUND_KEYS: seq<Key> := [MinTemp, MaxTemp, TargetTemp, EcoTemp]

  /** The keys the setters after `setMode` write: offset, thresholds and
      refresh rate always, timezone and language code only when accepted. */
  function TuningKeys(n: ThermostatSettings): seq<Key>
  {
    [TempOffset, TempChangeThreshold, HumidityChangeThreshold, EpdRefreshRate]
    + (if |n.timezone| >= 1 then [Timezone] else [])
    + (if |n.languageCode| == 2 then [LanguageCode] else [])
  }

  /** The keys `updateSettings(n)` writes with a valid mode: every settings key
      but `hysteresis`, the timezone and language code only when accepted. */
  function UpdateKeys(n: ThermostatSettings): (ks: seq<Key>)
    ensures Hysteresis !in ks && Initialized !in ks
    ensures TargetTemp in ks && MinTemp in ks && MaxTemp in ks && EcoTemp in ks && Mode in ks
    ensures Timezone in ks <==> |n.timezone| >= 1
    ensures LanguageCode in ks <==> |n.languageCode| == 2
  {
    BOUND_KEYS + [Mode] + TuningKeys(n)
  }

  /** The `put` calls of `setMinTemp`, `setMaxTemp`, `setTargetTemp` and
      `setEcoTemp` on record `s`, in order, including the target writes of the
      two bounds setters when they drag the target along. */
  function BoundsWrites(m: Flash, s: ThermostatSettings, n: ThermostatSettings): (r: Flash)
    ensures Mode in m ==> Mode in r && r[Mode] == m[Mode]
  {
    var s1 := WithMinTemp(s, n.minTemp);
    var m1 := m[MinTemp := FloatVal(s1.minTemp)];
    var m2 := if s.targetTemp < s1.minTemp then m1[TargetTemp := FloatVal(s1.targetTemp)] else m1;
    var s2 := WithMaxTemp(s1, n.maxTemp);
    var m3 := m2[MaxTemp := FloatVal(s2.maxTemp)];
    var m4 := if s1.targetTemp > s2.maxTemp then m3[TargetTemp := FloatVal(s2.targetTemp)] else m3;
    var s3 := WithTargetTemp(s2, n.targetTemp);
    m4[TargetTemp := FloatVal(s3.targetTemp)][EcoTemp := FloatVal(WithEcoTemp(s3, n.ecoTemp).ecoTemp)]
  }

  /** The `put` calls of the setters after `setMode`, in order. */
  function TuningWrites(m: Flash, n: ThermostatSettings): (r: Flash)
    ensures Hysteresis in m ==> Hysteresis in r && r[Hysteresis] == m[Hysteresis]
    ensures EpdRefreshRate in r && r[EpdRefreshRate] == UIntVal(n.epdRefreshRate)
  {
    var m1 := m[TempOffset := FloatVal(n.tempOffset)]
               [TempChangeThreshold := FloatVal(n.tempChangeThreshold)]
               [HumidityChangeThreshold := FloatVal(n.humidityChangeThreshold)]
               [EpdRefreshRate := UIntVal(n.epdRefreshRate)];
    var m2 := if |n.timezone| >= 1 then m1[Timezone := StringVal(n.timezone)] else m1;
    if |n.languageCode| == 2 then m2[LanguageCode := StringVal(n.languageCode)] else m2
  }

  /** The bounds setters leave each key they wrote holding its final value:
      the intermediate target writes are overwritten by `setTargetTemp`. */
  lemma {:induction false} BoundsWritesFinal(m: Flash, s: ThermostatSettings, n: ThermostatSettings)
    ensures BoundsWrites(m, s, n) == Write(m, ApplyBounds(s, n), BOUND_KEYS)
  {
    var r := ApplyBounds(s, n);
    assert BoundsWrites(m, s, n) == m[MinTemp := FloatVal(r.minTemp)][MaxTemp := FloatVal(r.maxTemp)]
                                     [TargetTemp := FloatVal(r.targetTemp)][EcoTemp := FloatVal(r.ecoTemp)];
    var k1, k2, k3 := [MinTemp], [MinTemp, MaxTemp], [MinTemp, MaxTemp, TargetTemp];
    assert Write(m, r, []) == m && [] + [MinTemp] == k1;
    assert k1 + [MaxTemp] == k2 && k2 + [TargetTemp] == k3 && k3 + [EcoTemp] == BOUND_KEYS;
    WriteLast(m, r, [], MinTemp);
    WriteLast(m, r, k1, MaxTemp);
    WriteLast(m, r, k2, TargetTemp);
    WriteLast(m, r, k3, EcoTemp);
  }

  /** The four unconditional writes after `setMode`. */
  lemma {:induction false} FixedTuningWrites(m: Flash, r: ThermostatSettings)
    ensures Write(m, r, [TempOffset, TempChangeThreshold, HumidityChangeThreshold, EpdRefreshRate])
            == m[TempOffset := FloatVal(r.tempOffset)][TempChangeThreshold := FloatVal(r.tempChangeThreshold)]
                [HumidityChangeThreshold := FloatVal(r.humidityChangeThreshold)]
                [EpdRefreshRate := UIntVal(r.epdRefreshRate)]
  {
    var k1, k2, k3 := [TempOffset], [TempOffset, TempChangeThreshold],
                      [TempOffset, TempChangeThreshold, HumidityChangeThreshold];
    var m1 := m[TempOffset := FloatVal(r.tempOffset)];
    var m2 := m1[TempChangeThreshold := FloatVal(r.tempChangeThreshold)];
    var m3 := m2[HumidityChangeThreshold := FloatVal(r.humidityChangeThreshold)];
    assert [] + [TempOffset] == k1;
    WriteLast(m, r, [], TempOffset);
    assert Write(m, r, k1) == m1;
    assert k1 + [TempChangeThreshold] == k2;
    WriteLast(m, r, k1, TempChangeThreshold);
    assert Write(m, r, k2) == m2;
    assert k2 + [HumidityChangeThreshold] == k3;
    WriteLast(m, r, k2, HumidityChangeThreshold);
    assert Write(m, r, k3) == m3;
    assert k3 + [EpdRefreshRate] == [TempOffset, TempChangeThreshold, HumidityChangeThreshold, EpdRefreshRate];
    WriteLast(m, r, k3, EpdRefreshRate);
  }

  /** The setters after `setMode` write the final value of each key they wrote. */
  lemma {:induction false} TuningWritesFinal(m: Flash, s: ThermostatSettings, n: ThermostatSettings)
    ensures TuningWrites(m, n) == Write(m, ApplyTuning(s, n), TuningKeys(n))
  {
    var r := ApplyTuning(s, n);
    var ks := [TempOffset, TempChangeThreshold, HumidityChangeThreshold, EpdRefreshRate];
    FixedTuningWrites(m, r);
    if |n.timezone| >= 1 {
      WriteLast(m, r, ks, Timezone);
      ks := ks + [Timezone];
    }
    if |n.languageCode| == 2 {
      WriteLast(m, r, ks, LanguageCode);
      ks := ks + [LanguageCode];
    }
    assert ks == TuningKeys(n);
  }

  /** All the writes of `updateSettings(n)` with a valid mode amount to one
      `put` of the final record's value for each key of `UpdateKeys(n)`. */
  lemma {:induction false} UpdateWritesFinal(m: Flash, s: ThermostatSettings, n: ThermostatSettings)
    requires IsValidMode(n.mode)
    ensures TuningWrites(BoundsWrites(m, s, n)[Mode := StringVal(n.mode)], n)
            == Write(m, ApplyUpdate(s, n), UpdateKeys(n))
  {
    var b := ApplyBounds(s, n);
    var bm := b.(mode := n.mode);
    var u := ApplyUpdate(s, n);
    BoundsWritesFinal(m, s, n);
    WriteAgree(m, b, u, BOUND_KEYS);
    WriteLast(m, u, BOUND_KEYS, Mode);
    TuningWritesFinal(Write(m, u, BOUND_KEYS + [Mode]), bm, n);
    WriteAppend(m, u, BOUND_KEYS + [Mode], TuningKeys(n));
  }

  class DataManager {
    /** The struct defaults (`ThermostatSettings()`) of this build. */
    const defaults: ThermostatSettings
    var settings: ThermostatSettings
    /** The "thermostat" flash namespace. */
    var preferences: Flash
    var initialized: bool
    /** Set when `setMode` called `ESP.restart()`: the device is rebooting. */
    var restartRequested: bool

    /** Before `begin` succeeds the record still holds the struct defaults. */
    ghost predicate Valid()
      reads this
    {
      !initialized ==> settings == defaults
    }

    /** A reboot would come back with the record now in RAM: the marker is
        stored and the namespace loads, over the defaults, to `settings`. */
    ghost predicate Durable()
      reads this
    {
      initialized ==> Initialized in preferences && Load(preferences, defaults) == settings
    }

    constructor (flash: Flash, extra: ExtraDefaults)
      ensures defaults == Defaults(extra) && settings == defaults
      ensures preferences == flash && !initialized && !restartRequested
      ensures Valid() && Durable()
    {
      defaults := Defaults(extra);
      settings := Defaults(extra);
      preferences := flash;
      initialized := false;
      restartRequested := false;
    }

    /** `begin`: `nsOpened` is the result of `preferences.begin("thermostat")`. */
    method Begin(nsOpened: bool) returns (ok: bool)
      requires Valid()
      modifies this
      ensures Valid() && ok == nsOpened
      ensures !nsOpened ==> unchanged(this)
      ensures nsOpened ==> initialized && restartRequested == old(restartRequested)
      ensures nsOpened ==> BootResult(settings, preferences) == Boot(old(preferences), old(settings), old(initialized))
      ensures nsOpened && old(Durable()) && (old(initialized) || FirstBootClean(old(preferences), defaults)) ==> Durable()
    {
      if !nsOpened {
        return false;
      }
      if Initialized in preferences {
        LoadIdempotent(preferences, defaults);
        settings := Load(preferences, settings);
      } else {
        SaveAllSettings();
        preferences := preferences[Initialized := BoolVal(true)];
        LoadIgnoresMarker(old(preferences), defaults, BoolVal(true));
        if old(initialized) {
          LoadSaved(old(preferences), settings, defaults);
          LoadIgnoresMarker(Write(old(preferences), settings, SETTINGS_KEYS), defaults, BoolVal(true));
        }
      }
      initialized := true;
      ok := true;
    }

    /** `saveAllSettings`: writes every field, but only once initialised. */
    method SaveAllSettings()
      modifies this`preferences
      ensures preferences == if initialized then Write(old(preferences), settings, SETTINGS_KEYS) else old(preferences)
    {
      if initialized {
        preferences := Write(preferences, settings, SETTINGS_KEYS);
      }
    }

    method SetTargetTemp(t: real) returns (ok: bool)
      requires Valid()
      modifies this
      ensures Valid() && ok == old(initialized)
      ensures !ok ==> unchanged(this)
      ensures ok ==> settings == WithTargetTemp(old(settings), t)
      ensures ok ==> preferences == old(preferences)[TargetTemp := FloatVal(settings.targetTemp)]
      ensures initialized == old(initialized) && restartRequested == old(restartRequested)
      ensures old(Durable()) ==> Durable()
    {
      if !initialized {
        return false;
      }
      settings := WithTargetTemp(settings, t);
      preferences := preferences[TargetTemp := FloatVal(settings.targetTemp)];
      ok := true;
    }

    method SetEcoTemp(t: real) returns (ok: bool)
      requires Valid()
      modifies this
      ensures Valid() && ok == old(initialized)
      ensures !ok ==> unchanged(this)
      ensures ok ==> settings == WithEcoTemp(old(settings), t)
      ensures ok ==> preferences == old(preferences)[EcoTemp := FloatVal(settings.ecoTemp)]
      ensures initialized == old(initialized) && restartRequested == old(restartRequested)
      ensures old(Durable()) ==> Durable()
    {
      if !initialized {
        return false;
      }
      settings := WithEcoTemp(settings, t);
      preferences := preferences[EcoTemp := FloatVal(settings.ecoTemp)];
      ok := true;
    }

    method SetMaxTemp(t: real) returns (ok: bool)
      requires Valid()
      modifies this
      ensures Valid() && ok == old(initialized)
      ensures !ok ==> unchanged(this)
      ensures ok ==> settings == WithMaxTemp(old(settings), t)
      ensures ok ==> (preferences ==
        var p := old(preferences)[MaxTemp := FloatVal(settings.maxTemp)];
         if old(settings.targetTemp) > settings.maxTemp then p[TargetTemp := FloatVal(settings.targetTemp)] else p)
      ensures initialized == old(initialized) && restartRequested == old(restartRequested)
      ensures old(Durable()) ==> Durable()
    {
      if !initialized {
        return false;
      }
      var m := Constrain(t, settings.minTemp, MAX_TEMP_LIMIT);
      settings := settings.(maxTemp := m);
      preferences := preferences[MaxTemp := FloatVal(settings.maxTemp)];
      if settings.targetTemp > settings.maxTemp {
        settings := settings.(targetTemp := settings.maxTemp);
        preferences := preferences[TargetTemp := FloatVal(settings.targetTemp)];
      }
      ok := true;
    }

    method SetMinTemp(t: real) returns (ok: bool)
      requires Valid()
      modifies this
      ensures Valid() && ok == old(initialized)
      ensures !ok ==> unchanged(this)
      ensures ok ==> settings == WithMinTemp(old(settings), t)
      ensures ok ==> (preferences ==
        var p := old(preferences)[MinTemp := FloatVal(settings.minTemp)];
         if old(settings.targetTemp) < settings.minTemp then p[TargetTemp := FloatVal(settings.targetTemp)] else p)
      ensures initialized == old(initialized) && restartRequested == old(restartRequested)
      ensures old(Durable()) ==> Durable()
    {
      if !initialized {
        return false;
      }
      var m := Constrain(t, MIN_TEMP_LIMIT, settings.maxTemp);
      settings := settings.(minTemp := m);
      preferences := preferences[MinTemp := FloatVal(settings.minTemp)];
      if settings.targetTemp < settings.minTemp {
        settings := settings.(targetTemp := settings.minTemp);
        preferences := preferences[TargetTemp := FloatVal(settings.targetTemp)];
      }
      ok := true;
    }

    /** `setMode`: a value other than "off", "eco", "on" restarts the device
        (`ESP.restart()`), so nothing is stored and the call never returns true. */
    method SetMode(mode: string) returns (ok: bool)
      requires Valid()
      modifies this
      ensures Valid() && ok == (old(initialized) && IsValidMode(mode))
      ensures !old(initialized) ==> unchanged(this)
      ensures ok ==> settings == old(settings).(mode := mode)
      ensures ok ==> preferences == old(preferences)[Mode := StringVal(mode)]
      ensures ok ==> restartRequested == old(restartRequested)
      ensures old(initialized) && !IsValidMode(mode) ==>
                restartRequested && settings == old(settings) && preferences == old(preferences)
      ensures initialized == old(initialized)
      ensures old(Durable()) ==> Durable()
    {
      if !initialized {
        return false;
      }
      if !IsValidMode(mode) {
        restartRequested := true;
        return false;
      }
      settings := settings.(mode := mode);
      preferences := preferences[Mode := StringVal(mode)];
      ok := true;
    }

    method SetTempOffset(offset: real) returns (ok: bool)
      requires Valid()
      modifies this
      ensures Valid() && ok == old(initialized)
      ensures !ok ==> unchanged(this)
      ensures ok ==> settings == old(settings).(tempOffset := offset)
      ensures ok ==> preferences == old(preferences)[TempOffset := FloatVal(offset)]
      ensures initialized == old(initialized) && restartRequested == old(restartRequested)
      ensures old(Durable()) ==> Durable()
    {
      if !initialized {
        return false;
      }
      settings := settings.(tempOffset := offset);
      preferences := preferences[TempOffset := FloatVal(offset)];
      ok := true;
    }

    method SetEpdRefreshRate(rate: U32) returns (ok: bool)
      requires Valid()
      modifies this
      ensures Valid() && ok == old(initialized)
      ensures !ok ==> unchanged(this)
      ensures ok ==> settings == old(settings).(epdRefreshRate := rate)
      ensures ok ==> preferences == old(preferences)[EpdRefreshRate := UIntVal(rate)]
      ensures initialized == old(initialized) && restartRequested == old(restartRequested)
      ensures old(Durable()) ==> Durable()
    {
      if !initialized {
        return false;
      }
      settings := settings.(epdRefreshRate := rate);
      preferences := preferences[EpdRefreshRate := UIntVal(rate)];
      ok := true;
    }

    method SetTempChangeThreshold(threshold: real) returns (ok: bool)
      requires Valid()
      modifies this
      ensures Valid() && ok == old(initialized)
      ensures !ok ==> unchanged(this)
      ensures ok ==> settings == old(settings).(tempChangeThreshold := threshold)
      ensures ok ==> preferences == old(preferences)[TempChangeThreshold := FloatVal(threshold)]
      ensures initialized == old(initialized) && restartRequested == old(restartRequested)
      ensures old(Durable()) ==> Durable()
    {
      if !initialized {
        return false;
      }
      settings := settings.(tempChangeThreshold := threshold);
      preferences := preferences[TempChangeThreshold := FloatVal(threshold)];
      ok := true;
    }

    method SetHumidityChangeThreshold(threshold: real) returns (ok: bool)
      requires Valid()
      modifies this
      ensures Valid() && ok == old(initialized)
      ensures !ok ==> unchanged(this)
      ensures ok ==> settings == old(settings).(humidityChangeThreshold := threshold)
      ensures ok ==> preferences == old(preferences)[HumidityChangeThreshold := FloatVal(threshold)]
      ensures initialized == old(initialized) && restartRequested == old(restartRequested)
      ensures old(Durable()) ==> Durable()
    {
      if !initialized {
        return false;
      }
      settings := settings.(humidityChangeThreshold := threshold);
      preferences := preferences[HumidityChangeThreshold := FloatVal(threshold)];
      ok := true;
    }

    /** `setTimezone`: an empty name is refused. */
    method SetTimezone(timezone: string) returns (ok: bool)
      requires Valid()
      modifies this
      ensures Valid() && ok == (old(initialized) && |timezone| >= 1)
      ensures !ok ==> unchanged(this)
      ensures ok ==> settings == old(settings).(timezone := timezone)
      ensures ok ==> preferences == old(preferences)[Timezone := StringVal(timezone)]
      ensures initialized == old(initialized) && restartRequested == old(restartRequested)
      ensures old(Durable()) ==> Durable()
    {
      if !initialized {
        return false;
      }
      if |timezone| < 1 {
        return false;
      }
      settings := settings.(timezone := timezone);
      preferences := preferences[Timezone := StringVal(timezone)];
      ok := true;
    }

    /** `setLanguageCode`: only two-character codes are stored. */
    method SetLanguageCode(code: string) returns (ok: bool)
      requires Valid()
      modifies this
      ensures Valid() && ok == (old(initialized) && |code| == 2)
      ensures !ok ==> unchanged(this)
      ensures ok ==> settings == old(settings).(languageCode := code)
      ensures ok ==> preferences == old(preferences)[LanguageCode := StringVal(code)]
      ensures initialized == old(initialized) && restartRequested == old(restartRequested)
      ensures old(Durable()) ==> Durable()
    {
      if !initialized {
        return false;
      }
      if |code| != 2 {
        return false;
      }
      settings := settings.(languageCode := code);
      preferences := preferences[LanguageCode := StringVal(code)];
      ok := true;
    }

    /** `updateSettings`: the individual setters in their fixed order; true
        whenever the store is initialised, even if a setter refused its value.
        An invalid mode restarts the device after the four temperature setters. */
    method UpdateSettings(n: ThermostatSettings) returns (ok: bool)
      requires Valid()
      modifies this
      ensures Valid() && initialized == old(initialized)
      ensures !old(initialized) ==> !ok && unchanged(this)
      ensures old(initialized) && IsValidMode(n.mode) ==>
                ok && restartRequested == old(restartRequested)
                && settings == ApplyUpdate(old(settings), n)
                && preferences == Write(old(preferences), settings, UpdateKeys(n))
      ensures old(initialized) && !IsValidMode(n.mode) ==>
                !ok && restartRequested
                && settings == ApplyBounds(old(settings), n)
                && preferences == Write(old(preferences), settings, BOUND_KEYS)
      ensures old(Durable()) ==> Durable()
    {
      if !initialized {
        return false;
      }
      var _ := SetMinTemp(n.minTemp);
      var _ := SetMaxTemp(n.maxTemp);
      var _ := SetTargetTemp(n.targetTemp);
      var _ := SetEcoTemp(n.ecoTemp);
      assert preferences == BoundsWrites(old(preferences), old(settings), n);
      BoundsWritesFinal(old(preferences), old(settings), n);
      var modeOk := SetMode(n.mode);
      if !modeOk {
        return false;
      }
      var _ := SetTempOffset(n.tempOffset);
      var _ := SetTempChangeThreshold(n.tempChangeThreshold);
      var _ := SetHumidityChangeThreshold(n.humidityChangeThreshold);
      var _ := SetEpdRefreshRate(n.epdRefreshRate);
      var _ := SetTimezone(n.timezone);
      var _ := SetLanguageCode(n.languageCode);
      UpdateWritesFinal(old(preferences), old(settings), n);
      ok := true;
    }

    /** `reset` as the code is written: clear the namespace and save the struct
        defaults. The "initialized" marker is not written back. */
    method ResetAsWritten()
      requires Valid()
      modifies this
      ensures Valid() && initialized == old(initialized) && restartRequested == old(restartRequested)
      ensures !old(initialized) ==> unchanged(this)
      ensures old(initialized) ==> settings == defaults && preferences == ResetFlashAsWritten(defaults)
      ensures old(initialized) ==> Initialized !in preferences
    {
      if initialized {
        preferences := map[];
        settings := defaults;
        SaveAllSettings();
      }
    }

    /** `reset` with the marker written back after the defaults, so that the
        store stays `Durable`: the model's factory reset. */
    method Reset()
      requires Valid()
      modifies this
      ensures Valid() && initialized == old(initialized) && restartRequested == old(restartRequested)
      ensures !old(initialized) ==> unchanged(this)
      ensures old(initialized) ==> settings == defaults && preferences == ResetFlash(defaults)
      ensures old(Durable()) ==> Durable()
    {
      if initialized {
        preferences := map[];
        settings := defaults;
        SaveAllSettings();
        preferences := preferences[Initialized := BoolVal(true)];
      }
    }

    /** `getLanguagePack`. */
    function GetLanguagePack(): (p: LanguagePack)
      reads this
      ensures p == EN <==> settings.languageCode == "en"
    {
      LanguagePackFor(settings.languageCode)
    }
  }

  /** As written, a setting changed after `reset` is lost at the next boot
      (the missing marker sends `begin` down the first-boot branch) and comes
      back at the boot after that. */
  lemma ResetAsWrittenLosesLaterWrite(x: ExtraDefaults)
    ensures var d := Defaults(x);
            var s := WithTargetTemp(d, 25.0);
            var m := ResetFlashAsWritten(d)[TargetTemp := FloatVal(s.targetTemp)];
            var first := Boot(m, d, false);
            var second := Boot(first.flash, d, false);
            s.targetTemp == 25.0 && first.settings.targetTemp == 20.5 && second.settings.targetTemp == 25.0
  {
    var d := Defaults(x);
    var m := ResetFlashAsWritten(d)[TargetTemp := FloatVal(25.0)];
    assert Initialized !in m;
    var first := Boot(m, d, false);
    assert first.flash == m[Initialized := BoolVal(true)];
    assert first.flash[TargetTemp] == FloatVal(25.0);
  }

  /** With the marker written back, any target set after a reset survives a reboot. */
  lemma {:induction false} ResetKeepsLaterWrite(x: ExtraDefaults, t: real)
    ensures var d := Defaults(x);
            var s := WithTargetTemp(d, t);
            Boot(ResetFlash(d)[TargetTemp := FloatVal(s.targetTemp)], d, false).settings == s
  {
    var d := Defaults(x);
    var s := WithTargetTemp(d, t);
    var m := ResetFlash(d)[TargetTemp := FloatVal(s.targetTemp)];
    assert Load(ResetFlash(d), d) == d;
    assert Load(m, d) == s;
  }
}
