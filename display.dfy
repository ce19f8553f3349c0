/** The e-ink refresh scheduling rule of `DisplayManager`: when `update`
    redraws the panel, what the redrawn frame shows, and which `last*`
    values it records. Drawing itself is abstracted into a `Frame` value. */
module Display {
  import opened Optional
  import opened Timing
  import opened Settings
  import opened Data

  /** Arduino's `round`: halves are rounded away from zero. */
  function RoundHalfAway(x: real): (r: int)
    ensures -0.5 <= r as real - x <= 0.5
    ensures x >= 0.0 ==> r >= 0
    ensures x <= 0.0 ==> r <= 0
    ensures x >= 0.0 ==> x - 0.5 < r as real
    ensures x < 0.0 ==> r as real < x + 0.5
  {
    if x >= 0.0 then (x + 0.5).Floor else -((0.5 - x).Floor)
  }

  /** Rounding is symmetric about zero. */
  lemma RoundOdd(x: real)
    ensures RoundHalfAway(-x) == -RoundHalfAway(x)
  {
  }

  /** Whole numbers are left alone. */
  lemma RoundWhole(n: int)
    ensures RoundHalfAway(n as real) == n
  {
  }

  /** The displayed temperature: rounded to the nearest half degree. */
  function HalfDegree(t: real): (h: real)
    ensures -0.25 <= h - t <= 0.25
  {
    RoundHalfAway(t * 2.0) as real / 2.0
  }

  function Abs(x: real): real
  {
    if x < 0.0 then -x else x
  }

  /** What one redraw puts on the panel: the target is not drawn in "off"
      mode, and the fire icon only while the heater is on. */
  datatype Frame = Frame(current: real, humidity: int, target: Option<real>, fire: bool)

  /** The values the last redraw recorded, and the heater state last seen. */
  datatype Seen = Seen(target: real, current: real, humidity: int, heater: bool)

  /** The fields as constructed. */
  const BOOT_SEEN: Seen := Seen(-999.0, -999.0, -1, false)

  /** The thresholds of the scheduling rule, which the build configuration
      supplies. */
  datatype Config = Config(refreshIntervalMs: U32, tempThreshold: real, humidityThreshold: real)

  /** What `update` sees in one pass: the displayed values it derives from
      the sensors and the settings. */
  datatype View = View(current: real, target: real, humidity: int, heater: bool)

  function ViewOf(s: ThermostatSettings, temp: real, humidity: real, heater: bool): (v: View)
    ensures v.target == ActiveTarget(s)
    ensures -0.25 <= v.current - temp <= 0.25
    ensures -0.5 <= v.humidity as real - humidity <= 0.5
  {
    View(HalfDegree(temp), ActiveTarget(s), RoundHalfAway(humidity), heater)
  }

  datatype Redraw = StatusChanged | ReadingChanged | NoRedraw

  /** The decision `update` takes. */
  function Decide(c: Config, last: Seen, lastRefresh: U32, now: U32, v: View): (d: Redraw)
    // A change of heater state or of the displayed target always redraws.
    ensures d == StatusChanged <==> v.heater != last.heater || v.target != last.target
    // Otherwise a redraw needs both the interval and a large enough change.
    ensures d == ReadingChanged <==>
              v.heater == last.heater && v.target == last.target &&
              Elapsed(now, lastRefresh) >= c.refreshIntervalMs &&
              (Abs(v.current - last.current) >= c.tempThreshold ||
               Abs((v.humidity - last.humidity) as real) >= c.humidityThreshold)
  {
    if v.heater != last.heater || v.target != last.target then StatusChanged
    else if Elapsed(now, lastRefresh) >= c.refreshIntervalMs &&
            (Abs(v.current - last.current) >= c.tempThreshold ||
             Abs((v.humidity - last.humidity) as real) >= c.humidityThreshold)
    then ReadingChanged
    else NoRedraw
  }

  /** What `refreshDisplay` records (the heater state is recorded only on a
      status redraw). */
  function Record(last: Seen, v: View, d: Redraw): (n: Seen)
    ensures d == NoRedraw ==> n == last
    ensures d != NoRedraw ==> n.target == v.target && n.current == v.current && n.humidity == v.humidity
    ensures d == StatusChanged ==> n.heater == v.heater
    ensures d == ReadingChanged ==> n.heater == last.heater
  {
    match d
    case NoRedraw => last
    case ReadingChanged => last.(target := v.target, current := v.current, humidity := v.humidity)
    case StatusChanged => Seen(v.target, v.current, v.humidity, v.heater)
  }

  /** With positive thresholds, a redraw is not repeated for the same view:
      the recorded values match it, whatever the clock says. */
  lemma RedrawSettles(c: Config, last: Seen, lastRefresh: U32, now: U32, later: U32, v: View)
    requires c.tempThreshold > 0.0 && c.humidityThreshold > 0.0
    requires Decide(c, last, lastRefresh, now, v) != NoRedraw
    ensures var n := Record(last, v, Decide(c, last, lastRefresh, now, v));
            Decide(c, n, lastRefresh, later, v) == NoRedraw
  {
  }

  /** Because no redraw moves `lastRefresh` off 0, the interval is measured
      from boot: once `now` reaches the interval (and until the millisecond
      counter wraps) any large enough change redraws at once. */
  lemma IntervalFromBoot(c: Config, last: Seen, now: U32, v: View)
    requires v.heater == last.heater && v.target == last.target
    requires now >= c.refreshIntervalMs
    requires Abs(v.current - last.current) >= c.tempThreshold
    ensures Decide(c, last, 0, now, v) == ReadingChanged
  {
  }

  class DisplayManager {
    const dataManager: DataManager
    const config: Config
    var lastRefresh: U32
    var lastTargetTemp: real
    var lastCurrentTemp: real
    var lastHumidity: int
    var lastHeatingActive: bool
    /** Declared without an initial value; only redraws zero it. */
    var partialRefreshCount: int
    /** Every frame drawn so far, oldest first. */
    var frames: seq<Frame>

    function LastSeen(): Seen
      reads this
    {
      Seen(lastTargetTemp, lastCurrentTemp, lastHumidity, lastHeatingActive)
    }

    /** `initialRefreshCount` is whatever the uninitialised
        `partialRefreshCount` happens to hold at construction. */
    constructor(dm: DataManager, c: Config, initialRefreshCount: int)
      ensures dataManager == dm && config == c
      ensures LastSeen() == BOOT_SEEN && lastRefresh == 0
      ensures partialRefreshCount == initialRefreshCount && frames == []
    {
      dataManager := dm;
      config := c;
      lastRefresh := 0;
      lastTargetTemp := -999.0;
      lastCurrentTemp := -999.0;
      lastHumidity := -1;
      lastHeatingActive := false;
      partialRefreshCount := initialRefreshCount;
      frames := [];
    }

    /** One `update` pass with the sensor readings and heater state as
        inputs. */
    method Update(now: U32, temp: real, humidity: real, heater: bool)
      modifies this
      ensures var v := ViewOf(old(dataManager.settings), temp, humidity, heater);
              var d := Decide(config, old(LastSeen()), old(lastRefresh), now, v);
              LastSeen() == Record(old(LastSeen()), v, d) &&
              lastRefresh == old(lastRefresh) &&
              (d == NoRedraw ==> frames == old(frames) && partialRefreshCount == old(partialRefreshCount)) &&
              (d != NoRedraw ==>
                 frames == old(frames) + [FrameFor(dataManager.settings, v)] && partialRefreshCount == 0)
    {
      var v := ViewOf(dataManager.settings, temp, humidity, heater);
      if heater != lastHeatingActive || v.target != lastTargetTemp {
        RefreshDisplay(v);
        lastHeatingActive := heater;
        return;
      }
      if Elapsed(now, lastRefresh) >= config.refreshIntervalMs &&
         (Abs(v.current - lastCurrentTemp) >= config.tempThreshold ||
          Abs((v.humidity - lastHumidity) as real) >= config.humidityThreshold) {
        RefreshDisplay(v);
      }
    }

    /** Draws one frame and records the shown values. */
    method RefreshDisplay(v: View)
      modifies this`frames, this`partialRefreshCount, this`lastTargetTemp,
               this`lastCurrentTemp, this`lastHumidity
      ensures frames == old(frames) + [FrameFor(dataManager.settings, v)]
      ensures partialRefreshCount == 0
      ensures lastTargetTemp == v.target && lastCurrentTemp == v.current && lastHumidity == v.humidity
    {
      var target := if dataManager.settings.mode == "off" then None else Some(v.target);
      frames := frames + [Frame(v.current, v.humidity, target, v.heater)];
      partialRefreshCount := 0;
      lastTargetTemp := v.target;
      lastCurrentTemp := v.current;
      lastHumidity := v.humidity;
    }
  }

  /** The frame drawn for a view under the given settings. */
  function FrameFor(s: ThermostatSettings, v: View): (f: Frame)
    ensures f.target == None <==> s.mode == "off"
    ensures f.target != None ==> f.target.value == v.target
    ensures f.fire == v.heater
    ensures f.current == v.current && f.humidity == v.humidity
  {
    Frame(v.current, v.humidity, if s.mode == "off" then None else Some(v.target), v.heater)
  }
}
