/** The NTP synchronisation state machine of `TimeManager`. Connectivity,
    the clock and the time library's "time is set" status are inputs; the
    NTP request itself is reported as an output. */
module TimeSync {
  import opened Timing
  import opened Settings
  import opened Data

  /** Retry a failed sync after 60 seconds. */
  const SYNC_RETRY_INTERVAL: U32 := 60000

  /** The fields `update` reads and writes. */
  datatype SyncState = SyncState(
    timeSynced: bool,
    syncRequested: bool,
    wasConnected: bool,
    justSynced: bool,
    lastSyncAttempt: U32)

  /** One pass of `update`: the next state, whether an NTP request went
      out, and whether the timezone location was (re)applied. */
  datatype SyncStep = SyncStep(next: SyncState, ntpRequested: bool, locationApplied: bool)

  function Step(s: SyncState, now: U32, connected: bool, timeIsSet: bool): (r: SyncStep)
    // wasConnected always ends equal to the current connectivity.
    ensures r.next.wasConnected == connected
    // timeSynced never goes back to false; it becomes true only on a
    // requested sync (or one requested by this very pass) that the library
    // reports as done, and then justSynced is raised with it.
    ensures s.timeSynced ==> r.next.timeSynced
    ensures !s.timeSynced && r.next.timeSynced <==>
              !s.timeSynced && (s.syncRequested || (connected && !s.wasConnected)) && timeIsSet
    ensures r.next.justSynced <==> s.justSynced || (r.next.timeSynced && !s.timeSynced)
    ensures r.locationApplied <==> r.next.timeSynced && !s.timeSynced
    // An NTP request goes out on a false-to-true change of connectivity, or
    // on a retry while connected, unsynced and more than the retry interval
    // after the last attempt; every request stamps the attempt time.
    ensures r.ntpRequested <==>
              connected &&
              (!s.wasConnected ||
               (s.syncRequested && !s.timeSynced && !timeIsSet &&
                Elapsed(now, s.lastSyncAttempt) > SYNC_RETRY_INTERVAL))
    ensures r.ntpRequested ==> r.next.lastSyncAttempt == now
    ensures !r.ntpRequested ==> r.next.lastSyncAttempt == s.lastSyncAttempt
    // Losing the link after a sync withdraws the request.
    ensures !connected && r.next.timeSynced ==> !r.next.syncRequested
  {
    var edge := connected && !s.wasConnected;
    var requested := s.syncRequested || edge;
    var attempt := if edge then now else s.lastSyncAttempt;
    var s1 := s.(syncRequested := requested, wasConnected := connected, lastSyncAttempt := attempt);
    var r :=
      if requested && !s.timeSynced then
        if timeIsSet then
          SyncStep(s1.(timeSynced := true, justSynced := true), edge, true)
        else if connected && Elapsed(now, attempt) > SYNC_RETRY_INTERVAL then
          SyncStep(s1.(lastSyncAttempt := now), true, false)
        else
          SyncStep(s1, edge, false)
      else
        SyncStep(s1, edge, false);
    if !connected && r.next.timeSynced then r.(next := r.next.(syncRequested := false)) else r
  }

  /** Events the main loop can deliver: an `update` pass, or a call of
      `checkAndClearJustSynced`. */
  datatype Event = Tick(now: U32, connected: bool, timeIsSet: bool) | CheckJustSynced

  /** The state after a sequence of events, and how many times
      `checkAndClearJustSynced` answered true. */
  function Run(s: SyncState, evs: seq<Event>): (SyncState, nat)
    decreases |evs|
  {
    if evs == [] then (s, 0)
    else
      var (s1, hit) :=
        match evs[0]
        case Tick(now, c, t) => (Step(s, now, c, t).next, 0)
        case CheckJustSynced => (s.(justSynced := false), if s.justSynced then 1 else 0);
      var (s2, n) := Run(s1, evs[1..]);
      (s2, hit + n)
  }

  /** A raised `justSynced` is owed to the one sync that has happened. */
  predicate Accounted(s: SyncState, reported: nat)
  {
    (if s.justSynced then 1 else 0) + reported == (if s.timeSynced then 1 else 0)
  }

  lemma {:induction false} RunAccounted(s: SyncState, reported: nat, evs: seq<Event>)
    requires Accounted(s, reported)
    ensures Accounted(Run(s, evs).0, reported + Run(s, evs).1)
    decreases |evs|
  {
    if evs != [] {
      match evs[0]
      case Tick(now, c, t) =>
        RunAccounted(Step(s, now, c, t).next, reported, evs[1..]);
      case CheckJustSynced =>
        RunAccounted(s.(justSynced := false), reported + (if s.justSynced then 1 else 0), evs[1..]);
    }
  }

  /** The initial state of the fields. */
  const BOOT: SyncState := SyncState(false, false, false, false, 0)

  /** From power-on, `checkAndClearJustSynced` answers true at most once,
      whatever happens to the link afterwards, and it has answered true
      exactly when the time is synced and the flag is no longer pending. */
  lemma JustSyncedReportedOnce(evs: seq<Event>)
    ensures Run(BOOT, evs).1 <= 1
    ensures Run(BOOT, evs).1 == 1 <==> Run(BOOT, evs).0.timeSynced && !Run(BOOT, evs).0.justSynced
  {
    RunAccounted(BOOT, 0, evs);
  }

  class TimeManager {
    const dataManager: DataManager
    var initialized: bool
    var timeSynced: bool
    var syncRequested: bool
    var wasConnected: bool
    var justSynced: bool
    var lastSyncAttempt: U32
    /** The timezone location last handed to the time library. */
    var location: string
    /** How many times `checkAndClearJustSynced` has answered true. */
    ghost var reported: nat

    function Current(): SyncState
      reads this
    {
      SyncState(timeSynced, syncRequested, wasConnected, justSynced, lastSyncAttempt)
    }

    ghost predicate Valid()
      reads this
    {
      Accounted(Current(), reported)
    }

    constructor(dm: DataManager)
      ensures Valid()
      ensures dataManager == dm && !initialized && Current() == BOOT && location == ""
      ensures reported == 0
    {
      dataManager := dm;
      initialized := false;
      timeSynced := false;
      syncRequested := false;
      wasConnected := false;
      justSynced := false;
      lastSyncAttempt := 0;
      location := "";
      reported := 0;
    }

    /** Applies the stored timezone once; later calls do nothing. */
    method Begin()
      modifies this
      ensures old(initialized) ==> unchanged(this)
      ensures !old(initialized) ==>
                initialized && location == dataManager.settings.timezone &&
                Current() == old(Current()) && reported == old(reported)
    {
      if initialized {
        return;
      }
      location := dataManager.settings.timezone;
      initialized := true;
    }

    method Update(now: U32, connected: bool, timeIsSet: bool) returns (ntpRequested: bool)
      requires Valid()
      modifies this
      ensures Valid()
      ensures !old(initialized) ==> unchanged(this) && !ntpRequested
      ensures old(initialized) ==>
                var r := Step(old(Current()), now, connected, timeIsSet);
                Current() == r.next && ntpRequested == r.ntpRequested &&
                initialized && reported == old(reported) &&
                location == (if r.locationApplied then dataManager.settings.timezone else old(location))
    {
      ntpRequested := false;
      if !initialized {
        return;
      }
      if connected && !wasConnected {
        ntpRequested := true;
        syncRequested := true;
        lastSyncAttempt := now;
      }
      wasConnected := connected;
      if syncRequested && !timeSynced {
        if timeIsSet {
          timeSynced := true;
          justSynced := true;
          location := dataManager.settings.timezone;
        } else if connected && Elapsed(now, lastSyncAttempt) > SYNC_RETRY_INTERVAL {
          ntpRequested := true;
          lastSyncAttempt := now;
        }
      }
      if !connected && timeSynced {
        syncRequested := false;
      }
    }

    predicate IsSynced()
      reads this
    {
      timeSynced
    }

    /** Reports a pending first sync once and clears it. */
    method CheckAndClearJustSynced() returns (b: bool)
      requires Valid()
      modifies this`justSynced, this`reported
      ensures Valid()
      ensures b == old(justSynced) && !justSynced
      ensures reported == old(reported) + (if b then 1 else 0)
      ensures reported <= 1
    {
      b := justSynced;
      if b {
        justSynced := false;
        reported := reported + 1;
      }
    }
  }
}
